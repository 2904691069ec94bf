/**
 * The structural validators of the model store: a questionnaire model is a
 * JSON object with a name, attributes, questions, derivation rules and
 * objects; the validators answer `[ok, message]` and `validateModel`
 * also rebuilds the model's parameter list from its questions.
 */
module ModelsInteractor {
  import opened Wrappers
  import opened JsValues

  /** The `[ok, message]` pair every validator returns. */
  datatype Verdict = Verdict(ok: bool, message: string)

  const Passed: Verdict := Verdict(true, "")

  const InvalidStructureMessage: string := "Attribute or parameter has invalid structure"
  const ValuesMessage: string := "values should be a non-empty array"
  const UnknownTypeMessage: string := "Unknown attribute/parameter type"
  const ModelEmptyMessage: string := "Model is empty"
  const IdMessage: string := "_id is not valid"
  const BaseNodesMessage: string := "Base nodes (name, attributes, questions, derivation_rules, objects) are not valid"
  const NoAttributesMessage: string := "Attributes length should not be zero"
  const QuestionMessage: string := "question has invalid structure"
  const RuleMessage: string := "Derivation rule must be a string"
  const ObjectStructureMessage: string := "Object has invalid structure"
  const ObjectValueMessage: string := "Object's attribute value is not valid"

  /** The fields a rebuilt parameter takes from its question. */
  const ParameterFields: seq<string> := ["param", "type", "values"]

  // ---------------------------------------------------------------------
  // copyFields
  // ---------------------------------------------------------------------

  /** After `o[key] = x`, every key reads as `x` if it is `key` and as before otherwise. */
  lemma LookupPutAll(fields: seq<(string, Json)>, key: string, x: Json)
    ensures forall k :: Lookup(Put(fields, key, x), k) == if k == key then x else Lookup(fields, k)
  {
    forall k ensures Lookup(Put(fields, key, x), k) == if k == key then x else Lookup(fields, k) {
      LookupPut(fields, key, x, k);
    }
  }

  /**
   * The object `target` becomes after copying the listed fields of
   * `source` one by one; a field is written only when its value is truthy.
   */
  function Copied(source: Json, target: seq<(string, Json)>, fields: seq<string>): seq<(string, Json)>
    decreases |fields|
  {
    if |fields| == 0 then target
    else
      var f := fields[0];
      var next := if Truthy(Get(source, f)) then Put(target, f, Get(source, f)) else target;
      Copied(source, next, fields[1..])
  }

  /**
   * After copying, each key reads as the source's value when it is a
   * listed field whose value is truthy, and as the target's own value
   * otherwise.
   */
  lemma {:induction false} CopiedLookup(source: Json, target: seq<(string, Json)>, fields: seq<string>)
    ensures forall k :: Lookup(Copied(source, target, fields), k) ==
                        if k in fields && Truthy(Get(source, k)) then Get(source, k) else Lookup(target, k)
    decreases |fields|
  {
    if |fields| > 0 {
      var f := fields[0];
      var next := if Truthy(Get(source, f)) then Put(target, f, Get(source, f)) else target;
      LookupPutAll(target, f, Get(source, f));
      CopiedLookup(source, next, fields[1..]);
      assert forall k :: k in fields <==> k == f || k in fields[1..];
    }
  }

  /** copyFields: writes each listed field of `source` whose value is truthy into `target`. */
  method CopyFields(source: Json, target: seq<(string, Json)>, fields: seq<string>) returns (r: seq<(string, Json)>)
    ensures r == Copied(source, target, fields)
  {
    r := target;
    var i := 0;
    while i < |fields|
      invariant 0 <= i <= |fields|
      invariant Copied(source, r, fields[i..]) == Copied(source, target, fields)
    {
      var f := fields[i];
      assert fields[i..][1..] == fields[i + 1..];
      if Truthy(Get(source, f)) {
        r := Put(r, f, Get(source, f));
      }
      i := i + 1;
    }
  }

  /** The parameter `validateModel` rebuilds from a question. */
  function ParameterOf(q: Json): Json
  {
    Obj(Copied(q, [], ParameterFields))
  }

  /** A rebuilt parameter has the question's truthy `param`, `type` and `values`, and nothing else. */
  lemma ParameterOfLookup(q: Json)
    ensures ParameterOf(q).Obj?
    ensures forall k :: Lookup(ParameterOf(q).fields, k) ==
                        if k in ParameterFields && Truthy(Get(q, k)) then Get(q, k) else Undefined
  {
    CopiedLookup(q, [], ParameterFields);
  }

  /** `xs` mapped through `f`, element by element, in order. */
  function MapEach(xs: seq<Json>, f: Json -> Json): seq<Json>
  {
    if |xs| == 0 then []
    else MapEach(xs[..|xs| - 1], f) + [f(xs[|xs| - 1])]
  }

  /** Mapping keeps the length and puts `f` of each element at that element's position. */
  lemma {:induction false} MapEachElements(xs: seq<Json>, f: Json -> Json)
    ensures |MapEach(xs, f)| == |xs|
    ensures forall i | 0 <= i < |xs| :: MapEach(xs, f)[i] == f(xs[i])
  {
    if |xs| > 0 {
      var init := xs[..|xs| - 1];
      MapEachElements(init, f);
      assert forall i | 0 <= i < |init| :: init[i] == xs[i];
    }
  }

  /** The parameters rebuilt from a run of questions, in order. */
  function ParametersOf(questions: seq<Json>): seq<Json>
  {
    MapEach(questions, ParameterOf)
  }

  /** Accepting one more question appends its parameter. */
  lemma ParametersOfNext(questions: seq<Json>, i: nat, p: seq<(string, Json)>)
    requires i < |questions| && p == Copied(questions[i], [], ParameterFields)
    ensures ParametersOf(questions[..i + 1]) == ParametersOf(questions[..i]) + [Obj(p)]
  {
    assert questions[..i + 1][..i] == questions[..i];
  }

  /** One rebuilt parameter per question, at the question's position. */
  lemma ParametersOfElements(questions: seq<Json>)
    ensures |ParametersOf(questions)| == |questions|
    ensures forall i | 0 <= i < |questions| :: ParametersOf(questions)[i] == ParameterOf(questions[i])
  {
    MapEachElements(questions, ParameterOf);
  }

  // ---------------------------------------------------------------------
  // validate_attr_or_param
  // ---------------------------------------------------------------------

  /** Shape of an acceptable attribute or parameter. */
  predicate WellFormedEntry(obj: Json)
  {
    && IsObject(obj)
    && (Get(obj, "param").Str? || Get(obj, "name").Str?)
    && Get(obj, "type").Str?
    && (|| Get(obj, "type").s == "number"
        || (&& Get(obj, "type").s == "choice"
            && Get(obj, "values").Arr?
            && |Get(obj, "values").elems| >= 2))
  }

  /**
   * validate_attr_or_param: accepts exactly the well-formed entries; a
   * rejection names the first failed check: structure, then the values of
   * a choice, then the type name.
   */
  function CheckAttrOrParam(obj: Json): (r: Verdict)
    ensures r.ok <==> WellFormedEntry(obj)
    ensures r.ok ==> r == Passed
    ensures !r.ok ==>
      r.message == (if !IsObject(obj) || !(Get(obj, "param").Str? || Get(obj, "name").Str?) || !Get(obj, "type").Str?
                    then InvalidStructureMessage
                    else if Get(obj, "type").s == "choice" then ValuesMessage
                    else UnknownTypeMessage)
  {
    if !IsObject(obj) || !(Get(obj, "param").Str? || Get(obj, "name").Str?) || !Get(obj, "type").Str? then
      Verdict(false, InvalidStructureMessage)
    else if LooselyEquals(Get(obj, "type"), "choice") then
      if !Get(obj, "values").Arr? || |Get(obj, "values").elems| <= 1 then Verdict(false, ValuesMessage)
      else Passed
    else if LooselyEquals(Get(obj, "type"), "number") then
      Passed
    else
      Verdict(false, UnknownTypeMessage)
  }

  /** A choice with a single value is refused with the message for an empty list. */
  lemma SingleChoiceRefused(obj: Json)
    requires IsObject(obj) && Get(obj, "name").Str? && Get(obj, "type") == Str("choice")
    requires Get(obj, "values").Arr? && |Get(obj, "values").elems| == 1
    ensures CheckAttrOrParam(obj) == Verdict(false, ValuesMessage)
  {
  }

  // ---------------------------------------------------------------------
  // validateModel
  // ---------------------------------------------------------------------

  /** The question check: an object with a string `text`, then the entry check. */
  function CheckQuestion(q: Json): Verdict
  {
    if !IsObject(q) || !Get(q, "text").Str? then Verdict(false, QuestionMessage)
    else CheckAttrOrParam(q)
  }

  /** The derivation-rule check. */
  function CheckRule(rule: Json): Verdict
  {
    if rule.Str? then Passed else Verdict(false, RuleMessage)
  }

  /** Where a `_.forEach` that stops at the first refusal stops: the first entry `check` refuses, if any. */
  function FirstRefused(entries: seq<Json>, check: Json -> Verdict): (r: Option<nat>)
    ensures r.None? <==> forall i | 0 <= i < |entries| :: check(entries[i]).ok
    ensures r.Some? ==>
      && r.value < |entries| && !check(entries[r.value]).ok
      && forall i | 0 <= i < r.value :: check(entries[i]).ok
  {
    if |entries| == 0 then None
    else if !check(entries[0]).ok then Some(0)
    else
      var r := FirstRefused(entries[1..], check);
      assert forall i | 1 <= i < |entries| :: entries[i] == entries[1..][i - 1];
      if r.None? then None else Some(r.value + 1)
  }

  /** The four base nodes have the right JSON types. */
  predicate BaseNodesValid(model: Json)
  {
    && Get(model, "name").Str?
    && Get(model, "attributes").Arr?
    && Get(model, "questions").Arr?
    && Get(model, "derivation_rules").Arr?
  }

  /** The checks of validateModel before its scans: the first one that fails, if any. */
  function PreludeVerdict(model: Json, checkForId: bool): (r: Option<Verdict>)
    ensures r.Some? ==> !r.value.ok
  {
    if IsEmpty(model) then Some(Verdict(false, ModelEmptyMessage))
    else if checkForId && !Get(model, "_id").Str? then Some(Verdict(false, IdMessage))
    else if !BaseNodesValid(model) then Some(Verdict(false, BaseNodesMessage))
    else if |Get(model, "attributes").elems| == 0 then Some(Verdict(false, NoAttributesMessage))
    else None
  }

  /** The verdict of the three scans: the first refused attribute, question or rule, in that order. */
  function ScansVerdict(attrs: seq<Json>, questions: seq<Json>, rules: seq<Json>): Verdict
  {
    match FirstRefused(attrs, CheckAttrOrParam)
    case Some(i) => CheckAttrOrParam(attrs[i])
    case None =>
      match FirstRefused(questions, CheckQuestion)
      case Some(j) => CheckQuestion(questions[j])
      case None =>
        match FirstRefused(rules, CheckRule)
        case Some(k) => CheckRule(rules[k])
        case None => Passed
  }

  /** The verdict of validateModel: the first failed check in the order the source makes them. */
  function ModelVerdict(model: Json, checkForId: bool): Verdict
  {
    match PreludeVerdict(model, checkForId)
    case Some(v) => v
    case None =>
      ScansVerdict(Get(model, "attributes").elems, Get(model, "questions").elems, Get(model, "derivation_rules").elems)
  }

  /** The model passes every check before the question scan (the only point after which the model is written). */
  predicate ReachesQuestions(model: Json, checkForId: bool)
  {
    && PreludeVerdict(model, checkForId).None?
    && FirstRefused(Get(model, "attributes").elems, CheckAttrOrParam).None?
  }

  /** How many questions the scan accepted before it stopped. */
  function QuestionsScanned(questions: seq<Json>): (n: nat)
    ensures n <= |questions|
  {
    match FirstRefused(questions, CheckQuestion)
    case Some(j) => j
    case None => |questions|
  }

  /**
   * The model after validateModel: once the question scan is reached and
   * reconstruction is on, `parameters` holds the parameter of every
   * question the scan accepted, in order; otherwise the model is as given.
   */
  function ModelAfterValidation(model: Json, checkForId: bool, noReconstruct: bool): Json
  {
    if ReachesQuestions(model, checkForId) && !noReconstruct && model.Obj? then
      var questions := Get(model, "questions").elems;
      var n := QuestionsScanned(questions);
      Obj(Put(model.fields, "parameters", Arr(ParametersOf(questions[..n]))))
    else model
  }

  /** A named property other than `length` can only be found on a plain object. */
  lemma NamedPropertyOfObject(v: Json, key: string)
    requires |key| > 0 && !('0' <= key[0] <= '9') && key != "length"
    requires Get(v, key) != Undefined
    ensures v.Obj?
  {
    if !v.Obj? {
      var entries := OwnEntries(v);
      forall i | 0 <= i < |entries| ensures entries[i].0 != key {
        if v.Arr? || v.Str? {
          assert entries[i].0 == NatText(i);
        }
      }
      LookupFirst(entries, key);
    }
  }

  /** Where the scan stops once every entry before `i` passed and entry `i` is refused. */
  lemma FirstRefusedAt(entries: seq<Json>, check: Json -> Verdict, i: nat)
    requires i < |entries| && !check(entries[i]).ok
    requires forall j | 0 <= j < i :: check(entries[j]).ok
    ensures FirstRefused(entries, check) == Some(i)
  {
  }

  /**
   * A `_.forEach` over `entries` whose callback stores `check`'s verdict
   * in `res` and stops at the first refusal: `res` ends as that refusal,
   * or as passed.
   */
  method ScanUntilRefused(entries: seq<Json>, check: Json -> Verdict) returns (res: Verdict)
    requires forall e :: check(e).ok ==> check(e) == Passed
    ensures res == match FirstRefused(entries, check)
                   case Some(i) => check(entries[i])
                   case None => Passed
  {
    res := Passed;
    var i := 0;
    while i < |entries|
      invariant 0 <= i <= |entries|
      invariant res == Passed
      invariant forall j | 0 <= j < i :: check(entries[j]).ok
    {
      res := check(entries[i]);
      if !res.ok {
        FirstRefusedAt(entries, check, i);
        return;
      }
      i := i + 1;
    }
  }

  /**
   * The question scan of validateModel: the first question without a
   * string text or failing the entry check stops it with that verdict;
   * with reconstruction on, every question before it adds its parameter.
   */
  method ScanQuestions(questions: seq<Json>, noReconstruct: bool) returns (res: Verdict, parameters: seq<Json>)
    ensures res == match FirstRefused(questions, CheckQuestion)
                   case Some(j) => CheckQuestion(questions[j])
                   case None => Passed
    ensures !noReconstruct ==> parameters == ParametersOf(questions[..QuestionsScanned(questions)])
  {
    res, parameters := ScanAndRebuild(questions, CheckQuestion, noReconstruct);
  }

  /**
   * The `_.forEach` of the question scan with its check as a parameter:
   * it stops at the first refusal with that verdict, and while
   * reconstruction is on each accepted question adds its parameter.
   */
  method ScanAndRebuild(questions: seq<Json>, check: Json -> Verdict, noReconstruct: bool) returns (res: Verdict, parameters: seq<Json>)
    requires forall e :: check(e).ok ==> check(e) == Passed
    ensures res == match FirstRefused(questions, check)
                   case Some(j) => check(questions[j])
                   case None => Passed
    ensures !noReconstruct ==>
      parameters == ParametersOf(questions[..match FirstRefused(questions, check) case Some(j) => j case None => |questions|])
  {
    res := Passed;
    parameters := [];
    var i := 0;
    while i < |questions|
      invariant 0 <= i <= |questions|
      invariant res == Passed
      invariant forall j | 0 <= j < i :: check(questions[j]).ok
      invariant !noReconstruct ==> parameters == ParametersOf(questions[..i])
    {
      var q := questions[i];
      res := check(q);
      if !res.ok {
        FirstRefusedAt(questions, check, i);
        return;
      }
      if !noReconstruct {
        parameters := AppendParameter(questions, i, parameters);
      }
      i := i + 1;
    }
    assert questions[..|questions|] == questions;
  }

  /** `var p = {}; copyFields(q, p, ...); model.parameters.push(p)` for question `i`. */
  method AppendParameter(questions: seq<Json>, i: nat, parameters: seq<Json>) returns (r: seq<Json>)
    requires i < |questions| && parameters == ParametersOf(questions[..i])
    ensures r == ParametersOf(questions[..i + 1])
  {
    var p := CopyFields(questions[i], [], ParameterFields);
    ParametersOfNext(questions, i, p);
    r := parameters + [Obj(p)];
  }

  /**
   * validateModel: the verdict is ModelVerdict's and the model afterwards
   * is ModelAfterValidation's. The object check at the end is called
   * without objects, so it cannot change the verdict.
   */
  method ValidateModel(model: Json, checkForId: bool, noReconstruct: bool) returns (res: Verdict, updated: Json)
    ensures res == ModelVerdict(model, checkForId)
    ensures updated == ModelAfterValidation(model, checkForId, noReconstruct)
  {
    updated := model;
    var early := ValidatePrelude(model, checkForId);
    if early.Some? {
      return early.value, model;
    }
    NamedPropertyOfObject(model, "name");
    var attrs := Get(model, "attributes").elems;
    res := ScanUntilRefused(attrs, CheckAttrOrParam);
    if !res.ok {
      return;
    }

    var questions := Get(model, "questions").elems;
    var parameters;
    res, parameters := ScanQuestions(questions, noReconstruct);
    if !noReconstruct {
      updated := Obj(Put(model.fields, "parameters", Arr(parameters)));
    }
    if !res.ok {
      return;
    }

    res := ScanUntilRefused(Get(model, "derivation_rules").elems, CheckRule);
    if !res.ok {
      return;
    }

    var objects := Get(model, "objects");
    if objects.Arr? && |objects.elems| > 0 {
      ObjectsVerdictWithoutObjects(model);
      var r := ValidateObjectsInModel(model, Undefined);
      res := r.value;
    }
  }

  /** The checks validateModel makes before its scans, in the source's order. */
  method ValidatePrelude(model: Json, checkForId: bool) returns (r: Option<Verdict>)
    ensures r == PreludeVerdict(model, checkForId)
  {
    if IsEmpty(model) {
      return Some(Verdict(false, ModelEmptyMessage));
    }
    if checkForId && !Get(model, "_id").Str? {
      return Some(Verdict(false, IdMessage));
    }
    var v := BaseNodesValid(model);
    if !v {
      return Some(Verdict(false, BaseNodesMessage));
    }
    if |Get(model, "attributes").elems| == 0 {
      return Some(Verdict(false, NoAttributesMessage));
    }
    return None;
  }

  // ---------------------------------------------------------------------
  // _validateObjectsInModel
  // ---------------------------------------------------------------------

  /** An object's value fits its attribute: one of a choice's values, or any number for a number attribute. */
  predicate ValueFits(attribute: Json, value: Json)
  {
    || (LooselyEquals(Get(attribute, "type"), "choice") && Includes(Get(attribute, "values"), value))
    || (LooselyEquals(Get(attribute, "type"), "number") && value.Num?)
  }

  /**
   * The scan of one object's attributes: the first one whose name is not a
   * model attribute throws (its `type` is read from undefined), the first
   * one whose value does not fit stops the scan.
   */
  function CheckObjectAttributes(index: map<string, Json>, entries: seq<(string, Json)>): (r: Completion<bool>)
    ensures r == Normal(true) <==>
      forall i | 0 <= i < |entries| :: entries[i].0 in index && ValueFits(index[entries[i].0], entries[i].1)
    ensures r.Thrown? ==> r.error == "TypeError"
  {
    if |entries| == 0 then Normal(true)
    else if entries[0].0 !in index then Thrown("TypeError")
    else if !ValueFits(index[entries[0].0], entries[0].1) then Normal(false)
    else
      var r := CheckObjectAttributes(index, entries[1..]);
      assert forall i | 1 <= i < |entries| :: entries[i] == entries[1..][i - 1];
      r
  }

  /**
   * The structure test of one object: an object with a string name and an
   * attributes object with as many keys as the model has attributes
   * (reading the model's attribute count throws when it has none).
   */
  function CheckObjectStructure(attributes: Json, obj: Json): (r: Completion<bool>)
    ensures r.Thrown? ==> r.error == "TypeError"
  {
    if !IsObject(obj) || !Get(obj, "name").Str? || !IsObject(Get(obj, "attributes")) then Normal(false)
    else
      match Member(attributes, "length")
      case Thrown(e) => Thrown(e)
      case Normal(count) => Normal(count == Num(|OwnEntries(Get(obj, "attributes"))|))
  }

  /** An object that passes both tests. */
  predicate ObjectConforms(index: map<string, Json>, attributes: Json, obj: Json)
  {
    && CheckObjectStructure(attributes, obj) == Normal(true)
    && var entries := OwnEntries(Get(obj, "attributes"));
       forall i | 0 <= i < |entries| :: entries[i].0 in index && ValueFits(index[entries[i].0], entries[i].1)
  }

  /** The object scan: the first object that fails decides the verdict, or throws. */
  function CheckObjects(index: map<string, Json>, attributes: Json, objects: seq<Json>): (r: Completion<Verdict>)
    ensures r == Normal(Passed) <==> forall i | 0 <= i < |objects| :: ObjectConforms(index, attributes, objects[i])
    ensures r.Normal? && !r.value.ok ==> r.value.message in {ObjectStructureMessage, ObjectValueMessage}
    ensures r.Thrown? ==> r.error == "TypeError"
  {
    if |objects| == 0 then Normal(Passed)
    else
      var obj := objects[0];
      match CheckObjectStructure(attributes, obj)
      case Thrown(e) => Thrown(e)
      case Normal(fits) =>
        if !fits then Normal(Verdict(false, ObjectStructureMessage))
        else
          match CheckObjectAttributes(index, OwnEntries(Get(obj, "attributes")))
          case Thrown(e) => Thrown(e)
          case Normal(valid) =>
            if !valid then Normal(Verdict(false, ObjectValueMessage))
            else
              var r := CheckObjects(index, attributes, objects[1..]);
              assert forall i | 1 <= i < |objects| :: objects[i] == objects[1..][i - 1];
              r
  }

  /** The verdict of _validateObjectsInModel on a model and the objects to check. */
  function ObjectsVerdict(model: Json, objects: Json): Completion<Verdict>
  {
    match Member(model, "attributes")
    case Thrown(e) => Thrown(e)
    case Normal(attributes) =>
      match IndexBy(Elements(attributes), "name")
      case Thrown(e) => Thrown(e)
      case Normal(index) => CheckObjects(index, attributes, Elements(objects))
  }

  /**
   * Called without objects, as validateModel calls it, the object check
   * passes as soon as the model's attributes can be indexed; in particular
   * when every attribute passed the entry check.
   */
  lemma ObjectsVerdictWithoutObjects(model: Json)
    requires model.Obj?
    requires Get(model, "attributes").Arr?
    requires FirstRefused(Get(model, "attributes").elems, CheckAttrOrParam).None?
    ensures ObjectsVerdict(model, Undefined) == Normal(Passed)
  {
    var attrs := Get(model, "attributes").elems;
    assert forall i | 0 <= i < |attrs| :: IsObject(attrs[i]);
    IndexByThrows(attrs, "name");
  }

  /** The inner loop of _validateObjectsInModel over one object's attributes. */
  method ScanObjectAttributes(index: map<string, Json>, entries: seq<(string, Json)>) returns (r: Completion<bool>)
    ensures r == CheckObjectAttributes(index, entries)
  {
    var k := 0;
    while k < |entries|
      invariant 0 <= k <= |entries|
      invariant CheckObjectAttributes(index, entries[k..]) == CheckObjectAttributes(index, entries)
    {
      var (name, value) := entries[k];
      if name !in index {
        return Thrown("TypeError");
      }
      if !ValueFits(index[name], value) {
        return Normal(false);
      }
      assert entries[k..][1..] == entries[k + 1..];
      k := k + 1;
    }
    return Normal(true);
  }

  /** The objects loop of _validateObjectsInModel. */
  method ScanObjects(index: map<string, Json>, attributes: Json, objs: seq<Json>) returns (r: Completion<Verdict>)
    ensures r == CheckObjects(index, attributes, objs)
  {
    var j := 0;
    while j < |objs|
      invariant 0 <= j <= |objs|
      invariant CheckObjects(index, attributes, objs[j..]) == CheckObjects(index, attributes, objs)
    {
      var obj := objs[j];
      if !IsObject(obj) || !Get(obj, "name").Str? || !IsObject(Get(obj, "attributes")) {
        return Normal(Verdict(false, ObjectStructureMessage));
      }
      if attributes.Null? || attributes.Undefined? {
        return Thrown("TypeError");
      }
      if Get(attributes, "length") != Num(|OwnEntries(Get(obj, "attributes"))|) {
        return Normal(Verdict(false, ObjectStructureMessage));
      }
      var valid := ScanObjectAttributes(index, OwnEntries(Get(obj, "attributes")));
      if valid.Thrown? {
        return Thrown(valid.error);
      }
      if !valid.value {
        return Normal(Verdict(false, ObjectValueMessage));
      }
      assert objs[j..][1..] == objs[j + 1..];
      j := j + 1;
    }
    return Normal(Passed);
  }

  /** _validateObjectsInModel: its result is ObjectsVerdict's. */
  method ValidateObjectsInModel(model: Json, objects: Json) returns (r: Completion<Verdict>)
    ensures r == ObjectsVerdict(model, objects)
  {
    if model.Null? || model.Undefined? {
      return Thrown("TypeError");
    }
    var attributes := Get(model, "attributes");
    var indexed := IndexElements(Elements(attributes), "name");
    if indexed.Thrown? {
      return Thrown(indexed.error);
    }
    r := ScanObjects(indexed.value, attributes, Elements(objects));
  }

  // ---------------------------------------------------------------------
  // countObjectsStats
  // ---------------------------------------------------------------------

  /** A lower bound that is either a number or `Infinity`, the start value of `min`. */
  datatype Bound = Finite(n: int) | Infinity

  /** The statistics kept per numeric attribute. */
  datatype Stat = Stat(min: Bound, max: int)

  /** `_.find` passes over this attribute: it can be read and its name is not loosely `name`. */
  predicate NameDiffers(attribute: Json, name: string)
  {
    !attribute.Null? && !attribute.Undefined? && !LooselyEquals(Get(attribute, "name"), name)
  }

  /**
   * `_.find(attrs, a => a.name == name)`: the first attribute whose name
   * equals `name`; reading the name of a null or undefined attribute on
   * the way throws.
   */
  function FindAttribute(attrs: seq<Json>, name: string): (r: Completion<Option<Json>>)
    ensures r.Normal? && r.value.Some? ==>
      exists i | 0 <= i < |attrs| :: attrs[i] == r.value.value && LooselyEquals(Get(attrs[i], "name"), name)
    ensures r.Thrown? ==> r.error == "TypeError"
  {
    if |attrs| == 0 then Normal(None)
    else if attrs[0].Null? || attrs[0].Undefined? then Thrown("TypeError")
    else if LooselyEquals(Get(attrs[0], "name"), name) then Normal(Some(attrs[0]))
    else
      var r := FindAttribute(attrs[1..], name);
      assert forall i | 1 <= i < |attrs| :: attrs[i] == attrs[1..][i - 1];
      r
  }

  /** `_.find` passes over the first `i` attributes. */
  predicate PassedOver(attrs: seq<Json>, i: int, name: string)
    requires 0 <= i <= |attrs|
  {
    forall j | 0 <= j < i :: NameDiffers(attrs[j], name)
  }

  /**
   * The lookup returns the FIRST attribute named `name`; it finds nothing
   * exactly when every attribute can be read and none is named `name`;
   * and it throws exactly when it meets a null or undefined attribute
   * before any attribute named `name`.
   */
  lemma {:induction false} FindAttributeFirst(attrs: seq<Json>, name: string)
    ensures var r := FindAttribute(attrs, name);
      r.Normal? && r.value.Some? ==>
        exists i | 0 <= i < |attrs| ::
          && attrs[i] == r.value.value && !attrs[i].Null? && !attrs[i].Undefined?
          && LooselyEquals(Get(attrs[i], "name"), name) && PassedOver(attrs, i, name)
    ensures FindAttribute(attrs, name) == Normal(None) <==> PassedOver(attrs, |attrs|, name)
    ensures FindAttribute(attrs, name).Thrown? <==>
      exists i | 0 <= i < |attrs| :: (attrs[i].Null? || attrs[i].Undefined?) && PassedOver(attrs, i, name)
  {
    if |attrs| == 0 {
    } else if attrs[0].Null? || attrs[0].Undefined? {
      assert PassedOver(attrs, 0, name);
    } else if LooselyEquals(Get(attrs[0], "name"), name) {
      assert PassedOver(attrs, 0, name);
      assert !PassedOver(attrs, |attrs|, name);
      forall i | 0 <= i < |attrs| && (attrs[i].Null? || attrs[i].Undefined?) ensures !PassedOver(attrs, i, name) {
        assert !NameDiffers(attrs[0], name);
      }
    } else {
      var tail := attrs[1..];
      FindAttributeFirst(tail, name);
      assert forall i | 0 <= i <= |tail| :: PassedOver(tail, i, name) <==> PassedOver(attrs, i + 1, name) by {
        forall i | 0 <= i <= |tail| ensures PassedOver(tail, i, name) <==> PassedOver(attrs, i + 1, name) {
          assert forall j | 0 <= j < i :: tail[j] == attrs[j + 1];
          if PassedOver(tail, i, name) {
            forall j | 0 <= j < i + 1 ensures NameDiffers(attrs[j], name) {
              if j > 0 { assert NameDiffers(tail[j - 1], name); }
            }
          }
        }
      }
      assert forall i | 0 <= i < |tail| :: tail[i] == attrs[i + 1];
      if FindAttribute(tail, name).Thrown? {
        var i :| 0 <= i < |tail| && (tail[i].Null? || tail[i].Undefined?) && PassedOver(tail, i, name);
        assert PassedOver(attrs, i + 1, name);
      }
      if exists i | 0 <= i < |attrs| :: (attrs[i].Null? || attrs[i].Undefined?) && PassedOver(attrs, i, name) {
        var i :| 0 <= i < |attrs| && (attrs[i].Null? || attrs[i].Undefined?) && PassedOver(attrs, i, name);
        assert i > 0;
        assert PassedOver(tail, i - 1, name);
      }
      var r := FindAttribute(tail, name);
      if r.Normal? && r.value.Some? {
        var i :| 0 <= i < |tail| && tail[i] == r.value.value && !tail[i].Null? && !tail[i].Undefined?
          && LooselyEquals(Get(tail[i], "name"), name) && PassedOver(tail, i, name);
        assert PassedOver(attrs, i + 1, name);
      }
    }
  }

  /** The attribute an object's entry names is known and of number type. */
  predicate NumberTyped(attrs: seq<Json>, name: string)
  {
    match FindAttribute(attrs, name)
    case Normal(Some(a)) => LooselyEquals(Get(a, "type"), "number")
    case _ => false
  }

  /**
   * The observations one object contributes, in `_.forOwn` order: its
   * entries whose attribute is of number type. An entry naming no model
   * attribute throws (its `type` is read from undefined).
   */
  function EntryObservations(attrs: seq<Json>, entries: seq<(string, Json)>): Completion<seq<(string, Json)>>
  {
    if |entries| == 0 then Normal([])
    else
      match FindAttribute(attrs, entries[0].0)
      case Thrown(e) => Thrown(e)
      case Normal(None) => Thrown("TypeError")
      case Normal(Some(a)) =>
        match EntryObservations(attrs, entries[1..])
        case Thrown(e) => Thrown(e)
        case Normal(rest) =>
          if LooselyEquals(Get(a, "type"), "number") then Normal([entries[0]] + rest) else Normal(rest)
  }

  /** The observations of all objects, object after object; the first throw ends the count. */
  function ObjectObservations(attrs: seq<Json>, objs: seq<Json>): Completion<seq<(string, Json)>>
  {
    if |objs| == 0 then Normal([])
    else
      match Member(objs[0], "attributes")
      case Thrown(e) => Thrown(e)
      case Normal(attributes) =>
        match EntryObservations(attrs, OwnEntries(attributes))
        case Thrown(e) => Thrown(e)
        case Normal(first) =>
          match ObjectObservations(attrs, objs[1..])
          case Thrown(e) => Thrown(e)
          case Normal(rest) => Normal(first + rest)
  }

  /**
   * One observation: the attribute's entry is created as
   * `{min: Infinity, max: 0}` when missing, and a number raises `max` or
   * lowers `min`.
   */
  function Observe(stats: map<string, Stat>, name: string, value: Json): (r: map<string, Stat>)
    ensures r.Keys == stats.Keys + {name}
    ensures forall k | k in stats && k != name :: r[k] == stats[k]
  {
    var s := if name in stats then stats[name] else Stat(Infinity, 0);
    var raised := if value.Num? && value.n > s.max then s.(max := value.n) else s;
    var lowered := if value.Num? && (raised.min.Infinity? || value.n < raised.min.n) then raised.(min := Finite(value.n)) else raised;
    stats[name := lowered]
  }

  /** The statistics after a run of observations, starting from `stats`. */
  function FoldObserve(stats: map<string, Stat>, observations: seq<(string, Json)>): map<string, Stat>
    decreases |observations|
  {
    if |observations| == 0 then stats
    else FoldObserve(Observe(stats, observations[0].0, observations[0].1), observations[1..])
  }

  /** Folding two runs one after the other is folding their concatenation. */
  lemma {:induction false} FoldObserveAppend(stats: map<string, Stat>, a: seq<(string, Json)>, b: seq<(string, Json)>)
    ensures FoldObserve(stats, a + b) == FoldObserve(FoldObserve(stats, a), b)
    decreases |a|
  {
    if |a| > 0 {
      FoldObserveAppend(Observe(stats, a[0].0, a[0].1), a[1..], b);
      assert (a + b)[1..] == a[1..] + b;
    } else {
      assert a + b == b;
    }
  }

  /** The statistics of a run of observations, from an empty dictionary. */
  function StatsOf(observations: seq<(string, Json)>): map<string, Stat>
  {
    FoldObserve(map[], observations)
  }

  /** Where a fold over the observations of `c` ends, starting from `stats`. */
  function Continued(stats: map<string, Stat>, c: Completion<seq<(string, Json)>>): Completion<map<string, Stat>>
  {
    match c
    case Thrown(e) => Thrown(e)
    case Normal(observations) => Normal(FoldObserve(stats, observations))
  }

  /** The statistics countObjectsStats computes for a model, or the TypeError it throws. */
  function ObjectsStats(model: Json): Completion<map<string, Stat>>
  {
    match Member(model, "objects")
    case Thrown(e) => Thrown(e)
    case Normal(objects) => Continued(map[], ObjectObservations(Elements(Get(model, "attributes")), Elements(objects)))
  }

  /** The `_.find` loop of countObjectsStats. */
  method FindAttributeIn(attrs: seq<Json>, name: string) returns (r: Completion<Option<Json>>)
    ensures r == FindAttribute(attrs, name)
  {
    var i := 0;
    while i < |attrs|
      invariant 0 <= i <= |attrs|
      invariant FindAttribute(attrs[i..], name) == FindAttribute(attrs, name)
    {
      assert attrs[i..][1..] == attrs[i + 1..];
      if attrs[i].Null? || attrs[i].Undefined? {
        return Thrown("TypeError");
      }
      if LooselyEquals(Get(attrs[i], "name"), name) {
        return Normal(Some(attrs[i]));
      }
      i := i + 1;
    }
    return Normal(None);
  }

  /** The `_.forOwn` loop of countObjectsStats over one object's attributes, updating `stats` entry by entry. */
  method ObserveEntries(attrs: seq<Json>, stats0: map<string, Stat>, entries: seq<(string, Json)>)
    returns (r: Completion<map<string, Stat>>)
    ensures r == Continued(stats0, EntryObservations(attrs, entries))
  {
    var stats := stats0;
    var k := 0;
    while k < |entries|
      invariant 0 <= k <= |entries|
      invariant Continued(stats, EntryObservations(attrs, entries[k..])) == Continued(stats0, EntryObservations(attrs, entries))
    {
      var (name, value) := entries[k];
      assert entries[k..][1..] == entries[k + 1..];
      var found := FindAttributeIn(attrs, name);
      if found.Thrown? {
        return Thrown(found.error);
      }
      if found.value.None? {
        return Thrown("TypeError");
      }
      var info := found.value.value;
      if LooselyEquals(Get(info, "type"), "number") {
        stats := Observe(stats, name, value);
      }
      k := k + 1;
    }
    return Normal(stats);
  }

  /** Counting from one object on: that object's observations first, then the rest of the objects. */
  lemma ContinuedObjects(stats: map<string, Stat>, attrs: seq<Json>, objs: seq<Json>)
    requires |objs| > 0 && !objs[0].Null? && !objs[0].Undefined?
    ensures Continued(stats, ObjectObservations(attrs, objs)) ==
      match Continued(stats, EntryObservations(attrs, OwnEntries(Get(objs[0], "attributes"))))
      case Thrown(e) => Thrown(e)
      case Normal(next) => Continued(next, ObjectObservations(attrs, objs[1..]))
  {
    var first := EntryObservations(attrs, OwnEntries(Get(objs[0], "attributes")));
    var rest := ObjectObservations(attrs, objs[1..]);
    if first.Normal? && rest.Normal? {
      FoldObserveAppend(stats, first.value, rest.value);
    }
  }

  /** The `_.forEach` loop of countObjectsStats over the objects. */
  method ObserveObjects(attrs: seq<Json>, objs: seq<Json>) returns (r: Completion<map<string, Stat>>)
    ensures r == Continued(map[], ObjectObservations(attrs, objs))
  {
    var stats: map<string, Stat> := map[];
    var j := 0;
    while j < |objs|
      invariant 0 <= j <= |objs|
      invariant Continued(stats, ObjectObservations(attrs, objs[j..])) == Continued(map[], ObjectObservations(attrs, objs))
    {
      assert objs[j..][1..] == objs[j + 1..];
      var o := objs[j];
      if o.Null? || o.Undefined? {
        return Thrown("TypeError");
      }
      ContinuedObjects(stats, attrs, objs[j..]);
      var next := ObserveEntries(attrs, stats, OwnEntries(Get(o, "attributes")));
      if next.Thrown? {
        return Thrown(next.error);
      }
      stats := next.value;
      j := j + 1;
    }
    return Normal(stats);
  }

  /** countObjectsStats: the statistics it stores in `model.stats`, or the TypeError it throws. */
  method CountObjectsStats(model: Json) returns (r: Completion<map<string, Stat>>)
    ensures r == ObjectsStats(model)
  {
    if model.Null? || model.Undefined? {
      return Thrown("TypeError");
    }
    r := ObserveObjects(Elements(Get(model, "attributes")), Elements(Get(model, "objects")));
  }
}

/**
 * The client API of the expert system: `/init` loads a model into the
 * user's session (attribute and parameter maps, compiled derivation rules,
 * the first question) and `/answer` checks an answer against the current
 * question, stores it and re-runs the derivation rules.
 *
 * The session is a `Session` object whose fields the routes update in
 * place. The rules compiler and the object ranking are not part of this
 * model: they are passed in as functions.
 */
module ApiClient {
  import opened Wrappers
  import opened JsValues

  // ---------------------------------------------------------------------
  // Replies
  // ---------------------------------------------------------------------

  const NoModelMessage: string := "No associated model found. Make sure you call /api/client/init?=model_id=YOUR_MODEL_ID"
  const ModelIdIsRequiredMessage: string := "Model id is required"
  const NoAnswerMessage: string := "No answer provided"
  const ModelNotFoundMessage: string := "Requested model not found"
  const AnswerIsNotValidMessage: string := "Answer is not valid"
  const ModelsSelectingErrorMessage: string := "Error happened while selecting models"

  /** What `/init` replies. */
  datatype InitReply =
    | ModelIdIsRequired
    | ModelsSelectingError
    | ModelNotFound
    | Started(question: Json)
    | InitCrashed(error: string)

  /** What `/answer` replies. */
  datatype AnswerReply =
    | NoModel
    | NoAnswer
    | AnswerIsNotValid
    | Answered(objects: seq<Json>, params: map<string, Json>, attrs: map<string, Json>)
    | AnswerCrashed(error: string)

  /** The message each refusal of `/init` carries; the three messages are distinct. */
  function InitMessage(reply: InitReply): (m: string)
    requires reply.ModelIdIsRequired? || reply.ModelsSelectingError? || reply.ModelNotFound?
    ensures reply.ModelIdIsRequired? <==> m == ModelIdIsRequiredMessage
    ensures reply.ModelsSelectingError? <==> m == ModelsSelectingErrorMessage
    ensures reply.ModelNotFound? <==> m == ModelNotFoundMessage
  {
    match reply
    case ModelIdIsRequired => ModelIdIsRequiredMessage
    case ModelsSelectingError => ModelsSelectingErrorMessage
    case ModelNotFound => ModelNotFoundMessage
  }

  /** The message each refusal of `/answer` carries; the three messages are distinct. */
  function AnswerMessage(reply: AnswerReply): (m: string)
    requires reply.NoModel? || reply.NoAnswer? || reply.AnswerIsNotValid?
    ensures reply.NoModel? <==> m == NoModelMessage
    ensures reply.NoAnswer? <==> m == NoAnswerMessage
    ensures reply.AnswerIsNotValid? <==> m == AnswerIsNotValidMessage
  {
    match reply
    case NoModel => NoModelMessage
    case NoAnswer => NoAnswerMessage
    case AnswerIsNotValid => AnswerIsNotValidMessage
  }

  // ---------------------------------------------------------------------
  // Session maps built by /init
  // ---------------------------------------------------------------------

  /** `m[e[field]] = null` for every element in turn: the keys of the user's attribute or parameter map. */
  function NullMap(elems: seq<Json>, field: string): map<string, Json>
  {
    if |elems| == 0 then map[]
    else NullMap(elems[..|elems| - 1], field)[ToText(Get(elems[|elems| - 1], field)) := Null]
  }

  /** The map has a key for the field text of every element and no other, each holding null. */
  lemma {:induction false} NullMapFacts(elems: seq<Json>, field: string)
    ensures forall k :: k in NullMap(elems, field) <==> exists i | 0 <= i < |elems| :: ToText(Get(elems[i], field)) == k
    ensures forall k | k in NullMap(elems, field) :: NullMap(elems, field)[k] == Null
  {
    if |elems| > 0 {
      var init := elems[..|elems| - 1];
      NullMapFacts(init, field);
      assert forall i | 0 <= i < |elems| - 1 :: elems[i] == init[i];
    }
  }

  /** The compiled form of each derivation rule, in declaration order. */
  function CompiledRules(rules: seq<Json>, compile: Json -> Json): seq<Json>
  {
    if |rules| == 0 then [] else [compile(rules[0])] + CompiledRules(rules[1..], compile)
  }

  /** One compiled statement per rule, each at its rule's position. */
  lemma {:induction false} CompiledRulesInOrder(rules: seq<Json>, compile: Json -> Json)
    ensures |CompiledRules(rules, compile)| == |rules|
    ensures forall i | 0 <= i < |rules| :: CompiledRules(rules, compile)[i] == compile(rules[i])
  {
    if |rules| > 0 {
      CompiledRulesInOrder(rules[1..], compile);
      assert forall i | 1 <= i < |rules| :: rules[i] == rules[1..][i - 1];
    }
  }

  // ---------------------------------------------------------------------
  // constructNextQuestion
  // ---------------------------------------------------------------------

  /** The parameter a question's `param_id` names in the session's parameter map, or undefined. */
  function ParameterFor(modelParameters: map<string, Json>, id: Json): Json
  {
    if ToText(id) in modelParameters then modelParameters[ToText(id)] else Undefined
  }

  /**
   * The question constructNextQuestion builds: always the model's first
   * question, with the text of the question and the name, type and values
   * of its parameter; reading through a missing question or parameter
   * throws.
   */
  function NextQuestion(model: Json, modelParameters: map<string, Json>): Completion<Json>
  {
    match Member(model, "questions")
    case Thrown(e) => Thrown(e)
    case Normal(questions) =>
      match Member(questions, "0")
      case Thrown(e) => Thrown(e)
      case Normal(q) =>
        match Member(q, "param_id")
        case Thrown(e) => Thrown(e)
        case Normal(id) =>
          var p := ParameterFor(modelParameters, id);
          match Member(p, "param")
          case Thrown(e) => Thrown(e)
          case Normal(name) =>
            Normal(Obj([("text", Get(q, "text")), ("param", name), ("type", Get(p, "type")), ("values", Get(p, "values"))]))
  }

  /** The first element of an array is its property `"0"`. */
  lemma FirstElement(elems: seq<Json>)
    requires |elems| > 0
    ensures Get(Arr(elems), "0") == elems[0]
  {
    assert NatText(0) == "0";
    assert OwnEntries(Arr(elems))[0] == ("0", elems[0]);
  }

  /** Reading back the four properties of a question as constructNextQuestion builds it. */
  lemma BuiltQuestionFields(text: Json, param: Json, typ: Json, values: Json)
    ensures var q := Obj([("text", text), ("param", param), ("type", typ), ("values", values)]);
      Get(q, "text") == text && Get(q, "param") == param && Get(q, "type") == typ && Get(q, "values") == values
  {
    var entries := [("text", text), ("param", param), ("type", typ), ("values", values)];
    assert entries[0].0 == "text" && entries[1].0 == "param" && entries[2].0 == "type" && entries[3].0 == "values";
    assert OwnEntries(Obj(entries)) == entries;
    LookupFirst(entries, "text");
    LookupFirst(entries, "param");
    LookupFirst(entries, "type");
    LookupFirst(entries, "values");
  }

  /**
   * For a model whose questions are an array, building the next question
   * throws exactly when there is no first question or its parameter is
   * missing.
   */
  lemma NextQuestionThrows(model: Json, modelParameters: map<string, Json>)
    requires Get(model, "questions").Arr? && !model.Null? && !model.Undefined?
    ensures var questions := Get(model, "questions").elems;
      NextQuestion(model, modelParameters).Thrown? <==>
        || |questions| == 0 || questions[0].Null? || questions[0].Undefined?
        || (var p := ParameterFor(modelParameters, Get(questions[0], "param_id")); p.Null? || p.Undefined?)
  {
    var questions := Get(model, "questions").elems;
    if |questions| > 0 {
      FirstElement(questions);
    } else {
      assert Get(Arr(questions), "0") == Undefined;
    }
  }

  /**
   * The question built is always the model's first question: its text,
   * with the `param`, `type` and `values` of the parameter its `param_id`
   * names.
   */
  lemma NextQuestionIsFirst(model: Json, modelParameters: map<string, Json>)
    requires Get(model, "questions").Arr? && !model.Null? && !model.Undefined?
    requires NextQuestion(model, modelParameters).Normal?
    ensures var questions := Get(model, "questions").elems;
      && |questions| > 0
      && var q := NextQuestion(model, modelParameters).value;
      var p := ParameterFor(modelParameters, Get(questions[0], "param_id"));
      && Get(q, "text") == Get(questions[0], "text")
      && Get(q, "param") == Get(p, "param")
      && Get(q, "type") == Get(p, "type")
      && Get(q, "values") == Get(p, "values")
  {
    var questions := Get(model, "questions").elems;
    NextQuestionThrows(model, modelParameters);
    FirstElement(questions);
    var p := ParameterFor(modelParameters, Get(questions[0], "param_id"));
    BuiltQuestionFields(Get(questions[0], "text"), Get(p, "param"), Get(p, "type"), Get(p, "values"));
  }

  // ---------------------------------------------------------------------
  // acceptAnswer
  // ---------------------------------------------------------------------

  /** The key of the user's parameter map the current question writes. */
  function ParamKey(question: Json): string
  {
    ToText(Get(question, "param"))
  }

  /**
   * An answer fits the current question: its parameter is a key of the
   * user's map, and the answer is one of the values of a choice or any
   * number for a number question.
   */
  predicate AnswerFits(question: Json, params: map<string, Json>, answer: Json)
  {
    && ParamKey(question) in params
    && (|| (LooselyEquals(Get(question, "type"), "choice") && Includes(Get(question, "values"), answer))
        || (LooselyEquals(Get(question, "type"), "number") && answer.Num?))
  }

  /** acceptAnswer's decision; reading the parameter of a missing current question throws. */
  function AcceptOutcome(question: Json, params: map<string, Json>, answer: Json): Completion<bool>
  {
    if question.Null? || question.Undefined? then Thrown("TypeError")
    else Normal(AnswerFits(question, params, answer))
  }

  /** The user's parameter map after acceptAnswer: only an accepted answer is written, under the question's parameter. */
  function ParamsAfterAnswer(question: Json, params: map<string, Json>, answer: Json): map<string, Json>
  {
    if AcceptOutcome(question, params, answer) == Normal(true) then params[ParamKey(question) := answer] else params
  }

  /**
   * acceptAnswer never adds a key; an accepted answer replaces exactly
   * the question's parameter, and a refused one changes nothing.
   */
  lemma AnswerWritesOneKnownKey(question: Json, params: map<string, Json>, answer: Json)
    ensures ParamsAfterAnswer(question, params, answer).Keys == params.Keys
    ensures AcceptOutcome(question, params, answer) == Normal(true) ==>
      ParamsAfterAnswer(question, params, answer)[ParamKey(question)] == answer
    ensures forall k | k in params && k != ParamKey(question) :: ParamsAfterAnswer(question, params, answer)[k] == params[k]
    ensures AcceptOutcome(question, params, answer) != Normal(true) ==> ParamsAfterAnswer(question, params, answer) == params
  {
  }

  /** For a choice question on a known parameter, an answer is accepted exactly when it is one of the values. */
  lemma ChoiceAcceptedIff(question: Json, params: map<string, Json>, answer: Json)
    requires question.Obj? && Get(question, "type") == Str("choice") && ParamKey(question) in params
    ensures AcceptOutcome(question, params, answer) == Normal(true) <==> Includes(Get(question, "values"), answer)
  {
  }

  /** For a number question on a known parameter, an answer is accepted exactly when it is a number. */
  lemma NumberAcceptedIff(question: Json, params: map<string, Json>, answer: Json)
    requires question.Obj? && Get(question, "type") == Str("number") && ParamKey(question) in params
    ensures AcceptOutcome(question, params, answer) == Normal(true) <==> answer.Num?
  {
  }

  /** A question of any other type, or on a parameter the user map lacks, accepts nothing. */
  lemma OtherQuestionsRefuse(question: Json, params: map<string, Json>, answer: Json)
    requires question.Obj?
    requires (Get(question, "type").Str? && Get(question, "type").s != "choice" && Get(question, "type").s != "number")
             || ParamKey(question) !in params
    ensures AcceptOutcome(question, params, answer) == Normal(false)
  {
  }

  /** A value is never among the values of a choice question whose values are neither a list, an object nor text. */
  lemma ChoiceWithoutValuesRefuses(question: Json, params: map<string, Json>, answer: Json)
    requires question.Obj? && Get(question, "type") == Str("choice")
    requires !IsObject(Get(question, "values")) && !Get(question, "values").Str?
    ensures AcceptOutcome(question, params, answer) == Normal(false)
  {
  }

  // ---------------------------------------------------------------------
  // executeDerivRules
  // ---------------------------------------------------------------------

  /** The attribute map a run of the rules leaves, and the error of the statement that threw, if one did. */
  datatype RulesRun = RulesRun(attrs: map<string, Json>, error: Option<string>)

  /**
   * Running the compiled statements once each, in stored order, on the
   * user's maps; `run` stands for the function the compiler creates from a
   * statement, applied to the parameter and attribute maps. A statement
   * that throws ends the run: the attributes keep what the statements
   * before it wrote.
   */
  function RunAll(run: (Json, map<string, Json>, map<string, Json>) -> Completion<map<string, Json>>,
                  statements: seq<Json>, params: map<string, Json>, attrs: map<string, Json>): RulesRun
    decreases |statements|
  {
    if |statements| == 0 then RulesRun(attrs, None)
    else
      match run(statements[0], params, attrs)
      case Thrown(e) => RulesRun(attrs, Some(e))
      case Normal(next) => RunAll(run, statements[1..], params, next)
  }

  /**
   * Running two lists of statements one after the other is running their
   * concatenation; a throw in the first list means the second never runs.
   */
  lemma {:induction false} RunAllAppend(run: (Json, map<string, Json>, map<string, Json>) -> Completion<map<string, Json>>,
                                        s1: seq<Json>, s2: seq<Json>, params: map<string, Json>, attrs: map<string, Json>)
    ensures RunAll(run, s1 + s2, params, attrs) ==
      var first := RunAll(run, s1, params, attrs);
      if first.error.Some? then first else RunAll(run, s2, params, first.attrs)
    decreases |s1|
  {
    if |s1| > 0 {
      assert (s1 + s2)[1..] == s1[1..] + s2;
      match run(s1[0], params, attrs)
      case Thrown(e) =>
      case Normal(next) => RunAllAppend(run, s1[1..], s2, params, next);
    } else {
      assert s1 + s2 == s2;
    }
  }

  /**
   * The last statement runs last: when the earlier ones finish and it
   * always writes `v` to attribute `k`, the run finishes with `k` holding `v`.
   */
  lemma LaterRuleWins(run: (Json, map<string, Json>, map<string, Json>) -> Completion<map<string, Json>>,
                      earlier: seq<Json>, last: Json, params: map<string, Json>, attrs: map<string, Json>, k: string, v: Json)
    requires RunAll(run, earlier, params, attrs).error.None?
    requires forall a :: run(last, params, a).Normal? && k in run(last, params, a).value && run(last, params, a).value[k] == v
    ensures RunAll(run, earlier + [last], params, attrs).error.None?
    ensures k in RunAll(run, earlier + [last], params, attrs).attrs
    ensures RunAll(run, earlier + [last], params, attrs).attrs[k] == v
  {
    RunAllAppend(run, earlier, [last], params, attrs);
    var mid := RunAll(run, earlier, params, attrs).attrs;
    assert [last][1..] == [];
    assert RunAll(run, [last], params, mid) == RulesRun(run(last, params, mid).value, None);
  }

  /** Statements that keep the attribute names keep them all the way through, whether or not one throws. */
  lemma {:induction false} RunAllKeepsNames(run: (Json, map<string, Json>, map<string, Json>) -> Completion<map<string, Json>>,
                                            statements: seq<Json>, params: map<string, Json>, attrs: map<string, Json>)
    requires forall st, a | st in statements && run(st, params, a).Normal? :: run(st, params, a).value.Keys == a.Keys
    ensures RunAll(run, statements, params, attrs).attrs.Keys == attrs.Keys
    decreases |statements|
  {
    if |statements| > 0 {
      assert statements[0] in statements;
      assert forall st | st in statements[1..] :: st in statements;
      match run(statements[0], params, attrs)
      case Thrown(e) =>
      case Normal(next) => RunAllKeepsNames(run, statements[1..], params, next);
    }
  }

  // ---------------------------------------------------------------------
  // /answer
  // ---------------------------------------------------------------------

  /**
   * The reply of `/answer` and the session after it: no model, then a
   * falsy answer, are refused before the answer is looked at; an accepted
   * answer is written to the user's parameters first, then the rules run
   * on the attributes, then the objects are ranked (`rank` stands for
   * calculateObjects, given the model, its attribute description and the
   * user's attributes). A throw in the rules or the ranking crashes the
   * request with the answer and the rules' writes already in the session.
   */
  function AfterAnswer(s: SessionState, answer: Json,
                       run: (Json, map<string, Json>, map<string, Json>) -> Completion<map<string, Json>>,
                       rank: (Json, map<string, Json>, map<string, Json>) -> Completion<seq<Json>>): (AnswerReply, SessionState)
  {
    if !Truthy(s.model) then (NoModel, s)
    else if !Truthy(answer) then (NoAnswer, s)
    else
      match AcceptOutcome(s.currentQuestion, s.parameters, answer)
      case Thrown(e) => (AnswerCrashed(e), s)
      case Normal(accepted) =>
        if !accepted then (AnswerIsNotValid, s)
        else
          var stored := s.(parameters := ParamsAfterAnswer(s.currentQuestion, s.parameters, answer));
          var ran := RunAll(run, s.statements, stored.parameters, s.attributes);
          var derived := stored.(attributes := ran.attrs);
          if ran.error.Some? then (AnswerCrashed(ran.error.value), derived)
          else
            match rank(s.model, s.attrsDescription, ran.attrs)
            case Thrown(e) => (AnswerCrashed(e), derived)
            case Normal(objs) => (Answered(objs, stored.parameters, ran.attrs), derived.(objects := objs))
  }

  /**
   * A falsy answer such as `0` or `""` is refused as no answer, even when
   * the current question would accept it, and the session is untouched.
   */
  lemma FalsyAnswerRefused(s: SessionState, answer: Json,
                           run: (Json, map<string, Json>, map<string, Json>) -> Completion<map<string, Json>>,
                           rank: (Json, map<string, Json>, map<string, Json>) -> Completion<seq<Json>>)
    requires Truthy(s.model) && !Truthy(answer)
    ensures AfterAnswer(s, answer, run, rank) == (NoAnswer, s)
  {
  }

  /** The answer `0` to a number question on a known parameter would be accepted, yet `/answer` refuses it. */
  lemma ZeroAnswerNeverValidated(s: SessionState,
                                 run: (Json, map<string, Json>, map<string, Json>) -> Completion<map<string, Json>>,
                                 rank: (Json, map<string, Json>, map<string, Json>) -> Completion<seq<Json>>)
    requires Truthy(s.model) && s.currentQuestion.Obj?
    requires Get(s.currentQuestion, "type") == Str("number") && ParamKey(s.currentQuestion) in s.parameters
    ensures AcceptOutcome(s.currentQuestion, s.parameters, Num(0)) == Normal(true)
    ensures AfterAnswer(s, Num(0), run, rank).0 == NoAnswer
  {
  }

  /**
   * An answered request had a truthy answer that fits the question. The
   * session stores it under the question's parameter and nowhere else;
   * its attributes are the rules' finished result on the new parameters;
   * it holds the ranked objects; and the reply shows exactly that state.
   */
  lemma AnsweredStoresAnswer(s: SessionState, answer: Json,
                             run: (Json, map<string, Json>, map<string, Json>) -> Completion<map<string, Json>>,
                             rank: (Json, map<string, Json>, map<string, Json>) -> Completion<seq<Json>>)
    requires AfterAnswer(s, answer, run, rank).0.Answered?
    ensures var (reply, t) := AfterAnswer(s, answer, run, rank);
      && Truthy(answer)
      && AnswerFits(s.currentQuestion, s.parameters, answer)
      && t.parameters.Keys == s.parameters.Keys
      && t.parameters[ParamKey(s.currentQuestion)] == answer
      && (forall k | k in s.parameters && k != ParamKey(s.currentQuestion) :: t.parameters[k] == s.parameters[k])
      && RunAll(run, s.statements, t.parameters, s.attributes) == RulesRun(t.attributes, None)
      && rank(s.model, s.attrsDescription, t.attributes) == Normal(t.objects)
      && reply == Answered(t.objects, t.parameters, t.attributes)
      && t.(parameters := s.parameters, attributes := s.attributes, objects := s.objects) == s
  {
    AnswerWritesOneKnownKey(s.currentQuestion, s.parameters, answer);
  }

  /** A refused request (no model, no answer, an answer that does not fit) leaves the session as it was. */
  lemma AnswerRefusalKeepsSession(s: SessionState, answer: Json,
                                  run: (Json, map<string, Json>, map<string, Json>) -> Completion<map<string, Json>>,
                                  rank: (Json, map<string, Json>, map<string, Json>) -> Completion<seq<Json>>)
    requires AfterAnswer(s, answer, run, rank).0 in {NoModel, NoAnswer, AnswerIsNotValid}
    ensures AfterAnswer(s, answer, run, rank).1 == s
    ensures AfterAnswer(s, answer, run, rank).0 == AnswerIsNotValid <==>
      Truthy(s.model) && Truthy(answer) && AcceptOutcome(s.currentQuestion, s.parameters, answer) == Normal(false)
  {
  }

  /**
   * A crash before the answer is written (no current question) leaves the
   * session as it was. A crash after it (a rule or the ranking throws)
   * leaves the answer stored and the rules' writes in place, and the
   * objects as they were.
   */
  lemma AnswerCrashAfterWrite(s: SessionState, answer: Json,
                              run: (Json, map<string, Json>, map<string, Json>) -> Completion<map<string, Json>>,
                              rank: (Json, map<string, Json>, map<string, Json>) -> Completion<seq<Json>>)
    requires AfterAnswer(s, answer, run, rank).0.AnswerCrashed?
    ensures var (reply, t) := AfterAnswer(s, answer, run, rank);
      var q := s.currentQuestion;
      && Truthy(s.model) && Truthy(answer)
      && (AcceptOutcome(q, s.parameters, answer).Thrown? ==> t == s)
      && (AcceptOutcome(q, s.parameters, answer).Normal? ==>
           && AcceptOutcome(q, s.parameters, answer) == Normal(true)
           && t.parameters == ParamsAfterAnswer(q, s.parameters, answer)
           && t.parameters[ParamKey(q)] == answer
           && t.attributes == RunAll(run, s.statements, t.parameters, s.attributes).attrs
           && (RunAll(run, s.statements, t.parameters, s.attributes).error.Some?
               || rank(s.model, s.attrsDescription, t.attributes).Thrown?)
           && t.objects == s.objects)
  {
    AnswerWritesOneKnownKey(s.currentQuestion, s.parameters, answer);
  }

  // ---------------------------------------------------------------------
  // /init
  // ---------------------------------------------------------------------

  /** The contents of a session at one moment, field by field. */
  datatype SessionState = SessionState(
    model: Json,
    attrsDescription: map<string, Json>,
    modelParameters: map<string, Json>,
    attributes: map<string, Json>,
    parameters: map<string, Json>,
    statements: seq<Json>,
    objects: seq<Json>,
    currentQuestion: Json)

  /**
   * The reply of `/init` and the session after it, given the id asked for
   * and the error or model the store returns: a missing id, an error or a
   * missing model leave the session alone; otherwise the session takes the
   * model, then its attribute index, then its parameter index, then the
   * user's maps, the compiled rules and an empty object list, and finally
   * the first question; a TypeError on the way stops there.
   */
  function AfterInit(s: SessionState, modelId: Json, fetched: Completion<Json>, compile: Json -> Json): (InitReply, SessionState)
  {
    if !Truthy(modelId) then (ModelIdIsRequired, s)
    else if fetched.Thrown? then (ModelsSelectingError, s)
    else if !Truthy(fetched.value) then (ModelNotFound, s)
    else Loaded(s, fetched.value, compile)
  }

  /** The loading part of `/init` for a model the store found. */
  function Loaded(s: SessionState, m: Json, compile: Json -> Json): (InitReply, SessionState)
  {
    var attrs := Elements(Get(m, "attributes"));
    var params := Elements(Get(m, "parameters"));
    var withModel := s.(model := m);
    match IndexBy(attrs, "name")
    case Thrown(e) => (InitCrashed(e), withModel)
    case Normal(described) =>
      var withAttrs := withModel.(attrsDescription := described);
      match IndexBy(params, "_id")
      case Thrown(e) => (InitCrashed(e), withAttrs)
      case Normal(indexed) => Reset(withAttrs.(modelParameters := indexed), compile)
  }

  /**
   * The last part of `/init`, once the session holds the model and its
   * indexes: the user's maps, the compiled rules and the object list
   * start afresh, and the first question becomes current.
   */
  function Reset(s: SessionState, compile: Json -> Json): (InitReply, SessionState)
  {
    var loaded := Cleared(s, compile);
    match NextQuestion(loaded.model, loaded.modelParameters)
    case Thrown(e) => (InitCrashed(e), loaded)
    case Normal(q) => (Started(q), loaded.(currentQuestion := q))
  }

  /** The user's maps, rules and objects as `/init` leaves them for the session's model. */
  function Cleared(s: SessionState, compile: Json -> Json): SessionState
  {
    s.(attributes := NullMap(Elements(Get(s.model, "attributes")), "name"),
       parameters := NullMap(Elements(Get(s.model, "parameters")), "param"),
       statements := CompiledRules(Elements(Get(s.model, "derivation_rules")), compile),
       objects := [])
  }

  /**
   * After a started `/init`, the session holds the model; every attribute
   * name and every parameter `param` of the model maps to null in the
   * user's maps; the compiled rules stand in declaration order; there are
   * no objects; and the first question is current.
   */
  lemma InitLoadsSession(s: SessionState, modelId: Json, fetched: Completion<Json>, compile: Json -> Json)
    requires AfterInit(s, modelId, fetched, compile).0.Started?
    ensures var (reply, t) := AfterInit(s, modelId, fetched, compile);
      var m := fetched.value;
      var attrs := Elements(Get(m, "attributes"));
      var params := Elements(Get(m, "parameters"));
      var rules := Elements(Get(m, "derivation_rules"));
      && fetched.Normal? && t.model == m
      && (forall k :: k in t.attributes <==> exists i | 0 <= i < |attrs| :: ToText(Get(attrs[i], "name")) == k)
      && (forall k | k in t.attributes :: t.attributes[k] == Null)
      && (forall k :: k in t.parameters <==> exists i | 0 <= i < |params| :: ToText(Get(params[i], "param")) == k)
      && (forall k | k in t.parameters :: t.parameters[k] == Null)
      && |t.statements| == |rules|
      && (forall i | 0 <= i < |rules| :: t.statements[i] == compile(rules[i]))
      && t.objects == []
      && t.currentQuestion == reply.question
      && NextQuestion(m, t.modelParameters) == Normal(reply.question)
  {
    var m := fetched.value;
    CompiledRulesInOrder(Elements(Get(m, "derivation_rules")), compile);
    NullMapFacts(Elements(Get(m, "attributes")), "name");
    NullMapFacts(Elements(Get(m, "parameters")), "param");
  }

  /** A refused `/init` (no id, store error, no model) leaves the session exactly as it was. */
  lemma InitRefusalKeepsSession(s: SessionState, modelId: Json, fetched: Completion<Json>, compile: Json -> Json)
    requires AfterInit(s, modelId, fetched, compile).0 in {ModelIdIsRequired, ModelsSelectingError, ModelNotFound}
    ensures AfterInit(s, modelId, fetched, compile).1 == s
    ensures AfterInit(s, modelId, fetched, compile).0 == ModelIdIsRequired <==> !Truthy(modelId)
  {
  }

  // ---------------------------------------------------------------------
  // The session
  // ---------------------------------------------------------------------

  /** The user's session: the loaded model, its maps, the user's answers and derived attributes. */
  class Session {
    /** `req.session.model` */
    var model: Json
    /** `req.session.model_attrs_description`: the model's attributes by name */
    var attrsDescription: map<string, Json>
    /** `req.session.model_parameters`: the model's parameters by `_id` */
    var modelParameters: map<string, Json>
    /** `req.session.attributes`: the user's derived attribute values */
    var attributes: map<string, Json>
    /** `req.session.parameters`: the user's answers */
    var parameters: map<string, Json>
    /** `req.session.statements`: the compiled derivation rules */
    var statements: seq<Json>
    /** `req.session.objects`: the ranked objects */
    var objects: seq<Json>
    /** `req.session.currentQuestion` */
    var currentQuestion: Json

    /** A fresh session holds nothing. */
    constructor ()
      ensures model == Undefined && currentQuestion == Undefined
      ensures attrsDescription == map[] && modelParameters == map[]
      ensures attributes == map[] && parameters == map[]
      ensures statements == [] && objects == []
    {
      model := Undefined;
      attrsDescription := map[];
      modelParameters := map[];
      attributes := map[];
      parameters := map[];
      statements := [];
      objects := [];
      currentQuestion := Undefined;
    }

    /** constructNextQuestion: builds the next question and makes it current; a throw leaves the session as it was. */
    method ConstructNextQuestion() returns (r: Completion<Json>)
      modifies this`currentQuestion
      ensures r == NextQuestion(model, modelParameters)
      ensures currentQuestion == if r.Normal? then r.value else old(currentQuestion)
    {
      var found := Member(model, "questions");
      if found.Thrown? {
        return Thrown(found.error);
      }
      var questions := found.value;
      var q: Json;
      if !Truthy(currentQuestion) {
        var first := Member(questions, "0");
        if first.Thrown? {
          return Thrown(first.error);
        }
        q := first.value;
      } else {
        var first := Member(questions, "0");
        if first.Thrown? {
          return Thrown(first.error);
        }
        q := first.value;
      }
      var id := Member(q, "param_id");
      if id.Thrown? {
        return Thrown(id.error);
      }
      var qParam := ParameterFor(modelParameters, id.value);
      var name := Member(qParam, "param");
      if name.Thrown? {
        return Thrown(name.error);
      }
      var built := Obj([("text", Get(q, "text")), ("param", name.value), ("type", Get(qParam, "type")), ("values", Get(qParam, "values"))]);
      currentQuestion := built;
      return Normal(built);
    }

    /** acceptAnswer: stores an answer that fits the current question; the result says whether it did. */
    method AcceptAnswer(answer: Json) returns (r: Completion<bool>)
      modifies this`parameters
      ensures r == AcceptOutcome(currentQuestion, old(parameters), answer)
      ensures parameters == ParamsAfterAnswer(currentQuestion, old(parameters), answer)
    {
      if currentQuestion.Null? || currentQuestion.Undefined? {
        return Thrown("TypeError");
      }
      var key := ToText(Get(currentQuestion, "param"));
      var kind := Get(currentQuestion, "type");
      if key in parameters
         && ((LooselyEquals(kind, "choice") && Includes(Get(currentQuestion, "values"), answer))
             || (LooselyEquals(kind, "number") && answer.Num?)) {
        parameters := parameters[key := answer];
        return Normal(true);
      }
      return Normal(false);
    }

    /**
     * executeDerivRules: runs every compiled statement once, in stored
     * order, on the user's maps; a statement that throws ends the loop with
     * the attributes as the statements before it left them.
     */
    method ExecuteDerivRules(run: (Json, map<string, Json>, map<string, Json>) -> Completion<map<string, Json>>)
      returns (error: Option<string>)
      modifies this`attributes
      ensures RulesRun(attributes, error) == RunAll(run, statements, parameters, old(attributes))
    {
      var i := 0;
      while i < |statements|
        invariant 0 <= i <= |statements|
        invariant RunAll(run, statements[i..], parameters, attributes) == RunAll(run, statements, parameters, old(attributes))
      {
        assert statements[i..][1..] == statements[i + 1..];
        var ran := run(statements[i], parameters, attributes);
        if ran.Thrown? {
          return Some(ran.error);
        }
        attributes := ran.value;
        i := i + 1;
      }
      return None;
    }

    /** The `_.forEach` that maps every element's field to null. */
    static method NullElements(elems: seq<Json>, field: string) returns (r: map<string, Json>)
      ensures r == NullMap(elems, field)
    {
      r := map[];
      var i := 0;
      while i < |elems|
        invariant 0 <= i <= |elems|
        invariant r == NullMap(elems[..i], field)
      {
        assert elems[..i + 1][..i] == elems[..i];
        r := r[ToText(Get(elems[i], field)) := Null];
        i := i + 1;
      }
      assert elems[..i] == elems;
    }

    /** The `_.forEach` that compiles the derivation rules in declaration order. */
    static method CompileAll(rules: seq<Json>, compile: Json -> Json) returns (r: seq<Json>)
      ensures r == CompiledRules(rules, compile)
    {
      r := [];
      var i := 0;
      while i < |rules|
        invariant 0 <= i <= |rules|
        invariant r + CompiledRules(rules[i..], compile) == CompiledRules(rules, compile)
      {
        assert rules[i..][1..] == rules[i + 1..];
        r := r + [compile(rules[i])];
        i := i + 1;
      }
    }

    /** The session's contents. */
    function State(): SessionState
      reads this
    {
      SessionState(model, attrsDescription, modelParameters, attributes, parameters, statements, objects, currentQuestion)
    }

    /** `/init`: its reply and the session afterwards are AfterInit's. */
    method Init(modelId: Json, fetched: Completion<Json>, compile: Json -> Json) returns (reply: InitReply)
      modifies this
      ensures (reply, State()) == AfterInit(old(State()), modelId, fetched, compile)
    {
      if !Truthy(modelId) {
        return ModelIdIsRequired;
      }
      if fetched.Thrown? {
        return ModelsSelectingError;
      }
      if !Truthy(fetched.value) {
        return ModelNotFound;
      }
      reply := Load(fetched.value, compile);
    }

    /** The model callback of `/init`: loads a found model into the session. */
    method Load(m: Json, compile: Json -> Json) returns (reply: InitReply)
      modifies this
      ensures (reply, State()) == Loaded(old(State()), m, compile)
    {
      model := m;

      var attrs := Elements(Get(m, "attributes"));
      var described := IndexElements(attrs, "name");
      if described.Thrown? {
        return InitCrashed(described.error);
      }
      attrsDescription := described.value;

      var params := Elements(Get(m, "parameters"));
      var indexed := IndexElements(params, "_id");
      if indexed.Thrown? {
        return InitCrashed(indexed.error);
      }
      modelParameters := indexed.value;

      reply := ResetForModel(compile);
    }

    /** The loops of `/init` that fill the user's maps and compile the rules. */
    method Clear(compile: Json -> Json)
      modifies this`attributes, this`parameters, this`statements, this`objects
      ensures State() == Cleared(old(State()), compile)
    {
      FillUserMaps();
      statements := CompileAll(Elements(Get(model, "derivation_rules")), compile);
      objects := [];
    }

    /** The two loops of `/init` that map every attribute name and every parameter to null. */
    method FillUserMaps()
      modifies this`attributes, this`parameters
      ensures attributes == NullMap(Elements(Get(model, "attributes")), "name")
      ensures parameters == NullMap(Elements(Get(model, "parameters")), "param")
    {
      attributes := NullElements(Elements(Get(model, "attributes")), "name");
      parameters := NullElements(Elements(Get(model, "parameters")), "param");
    }

    /** The session reset of `/init` for the model already loaded. */
    method ResetForModel(compile: Json -> Json) returns (reply: InitReply)
      modifies this
      ensures (reply, State()) == Reset(old(State()), compile)
    {
      Clear(compile);
      var question := ConstructNextQuestion();
      if question.Normal? {
        reply := Started(question.value);
      } else {
        reply := InitCrashed(question.error);
      }
    }

    /** `/answer`: its reply and the session afterwards are AfterAnswer's. */
    method Answer(answer: Json,
                  run: (Json, map<string, Json>, map<string, Json>) -> Completion<map<string, Json>>,
                  rank: (Json, map<string, Json>, map<string, Json>) -> Completion<seq<Json>>) returns (reply: AnswerReply)
      modifies this`parameters, this`attributes, this`objects
      ensures (reply, State()) == AfterAnswer(old(State()), answer, run, rank)
    {
      if !Truthy(model) {
        return NoModel;
      }
      if !Truthy(answer) {
        return NoAnswer;
      }
      var accepted := AcceptAnswer(answer);
      if accepted.Thrown? {
        return AnswerCrashed(accepted.error);
      }
      if !accepted.value {
        return AnswerIsNotValid;
      }
      var error := ExecuteDerivRules(run);
      if error.Some? {
        return AnswerCrashed(error.value);
      }
      var ranked := rank(model, attrsDescription, attributes);
      if ranked.Thrown? {
        return AnswerCrashed(ranked.error);
      }
      objects := ranked.value;
      return Answered(objects, parameters, attributes);
    }
  }
}

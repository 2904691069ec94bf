/**
 * What the model-store validators and the statistics count promise, stated
 * over the specification functions of ModelsInteractor.
 */
module ModelsInteractorProperties {
  import opened Wrappers
  import opened JsValues
  import opened ModelsInteractor

  // ---------------------------------------------------------------------
  // validateModel
  // ---------------------------------------------------------------------

  /** A model validateModel accepts, described check by check. */
  predicate ModelWellFormed(model: Json, checkForId: bool)
  {
    && !IsEmpty(model)
    && (checkForId ==> Get(model, "_id").Str?)
    && Get(model, "name").Str?
    && Get(model, "attributes").Arr?
    && Get(model, "questions").Arr?
    && Get(model, "derivation_rules").Arr?
    && |Get(model, "attributes").elems| > 0
    && (forall a | a in Get(model, "attributes").elems :: WellFormedEntry(a))
    && (forall q | q in Get(model, "questions").elems :: IsObject(q) && Get(q, "text").Str? && WellFormedEntry(q))
    && (forall rule | rule in Get(model, "derivation_rules").elems :: rule.Str?)
  }

  /** A scan passes exactly when every entry passes its check. */
  lemma FirstRefusedNone(entries: seq<Json>, check: Json -> Verdict, p: Json -> bool)
    requires forall e :: check(e).ok <==> p(e)
    ensures FirstRefused(entries, check).None? <==> forall e | e in entries :: p(e)
  {
    if FirstRefused(entries, check).Some? {
      var i := FirstRefused(entries, check).value;
      assert entries[i] in entries && !p(entries[i]);
    }
  }

  /** validateModel accepts a model exactly when it is well formed; an accepted model gets `[true, ""]`. */
  lemma ModelAcceptedIff(model: Json, checkForId: bool)
    ensures ModelVerdict(model, checkForId).ok <==> ModelWellFormed(model, checkForId)
    ensures ModelVerdict(model, checkForId).ok ==> ModelVerdict(model, checkForId) == Passed
  {
    if PreludeVerdict(model, checkForId).None? {
      var attrs := Get(model, "attributes").elems;
      var questions := Get(model, "questions").elems;
      var rules := Get(model, "derivation_rules").elems;
      FirstRefusedNone(attrs, CheckAttrOrParam, WellFormedEntry);
      FirstRefusedNone(questions, CheckQuestion, (q: Json) => IsObject(q) && Get(q, "text").Str? && WellFormedEntry(q));
      FirstRefusedNone(rules, CheckRule, (rule: Json) => rule.Str?);
    }
  }

  /** A rejected model carries the message of the first failed check, one of the source's messages. */
  lemma ModelRejectionMessage(model: Json, checkForId: bool)
    requires !ModelVerdict(model, checkForId).ok
    ensures ModelVerdict(model, checkForId).message in
      {ModelEmptyMessage, IdMessage, BaseNodesMessage, NoAttributesMessage,
       InvalidStructureMessage, ValuesMessage, UnknownTypeMessage, QuestionMessage, RuleMessage}
  {
    if PreludeVerdict(model, checkForId).None? {
      var attrs := Get(model, "attributes").elems;
      var questions := Get(model, "questions").elems;
      match FirstRefused(attrs, CheckAttrOrParam)
      case Some(i) =>
      case None =>
        match FirstRefused(questions, CheckQuestion)
        case Some(j) =>
        case None =>
    }
  }

  /** Two models that agree on emptiness and on every key validateModel reads get the same verdict. */
  lemma SameReadsSameVerdict(m1: Json, m2: Json, checkForId: bool)
    requires IsEmpty(m1) == IsEmpty(m2)
    requires Get(m1, "_id") == Get(m2, "_id") && Get(m1, "name") == Get(m2, "name")
    requires Get(m1, "attributes") == Get(m2, "attributes") && Get(m1, "questions") == Get(m2, "questions")
    requires Get(m1, "derivation_rules") == Get(m2, "derivation_rules")
    ensures ModelVerdict(m1, checkForId) == ModelVerdict(m2, checkForId)
  {
    assert PreludeVerdict(m1, checkForId) == PreludeVerdict(m2, checkForId);
  }

  /** Storing any value under a key validateModel does not read leaves its verdict unchanged, for a model that has keys. */
  lemma UnreadKeyIgnored(model: Json, checkForId: bool, key: string, x: Json)
    requires model.Obj? && !IsEmpty(model)
    requires key != "_id" && key != "name" && key != "attributes" && key != "questions" && key != "derivation_rules"
    ensures ModelVerdict(Obj(Put(model.fields, key, x)), checkForId) == ModelVerdict(model, checkForId)
  {
    var after := Obj(Put(model.fields, key, x));
    LookupPut(model.fields, key, x, "_id");
    LookupPut(model.fields, key, x, "name");
    LookupPut(model.fields, key, x, "attributes");
    LookupPut(model.fields, key, x, "questions");
    LookupPut(model.fields, key, x, "derivation_rules");
    SameReadsSameVerdict(after, model, checkForId);
  }

  /**
   * validateModel never fails because of the model's objects: whatever
   * `objects` holds, a model is accepted or refused alike, and a model
   * with keys gets the very same verdict.
   */
  lemma ObjectsIgnored(model: Json, checkForId: bool, objects: Json)
    requires model.Obj?
    ensures ModelVerdict(Obj(Put(model.fields, "objects", objects)), checkForId).ok == ModelVerdict(model, checkForId).ok
    ensures !IsEmpty(model) ==>
      ModelVerdict(Obj(Put(model.fields, "objects", objects)), checkForId) == ModelVerdict(model, checkForId)
  {
    if IsEmpty(model) {
      LookupPut(model.fields, "objects", objects, "name");
      assert !Get(Obj(Put(model.fields, "objects", objects)), "name").Str?;
    } else {
      UnreadKeyIgnored(model, checkForId, "objects", objects);
    }
  }

  /**
   * With reconstruction on, once the attributes pass, `parameters` holds
   * exactly one rebuilt parameter per question the scan accepted, in
   * question order, and no other key changes; with reconstruction off the
   * model is left as it was.
   */
  lemma ParametersRebuilt(model: Json, checkForId: bool, noReconstruct: bool)
    ensures noReconstruct ==> ModelAfterValidation(model, checkForId, noReconstruct) == model
    ensures !noReconstruct && ReachesQuestions(model, checkForId) ==>
      var after := ModelAfterValidation(model, checkForId, noReconstruct);
      var questions := Get(model, "questions").elems;
      && after.Obj?
      && Get(after, "parameters").Arr?
      && |Get(after, "parameters").elems| == QuestionsScanned(questions)
      && (forall i | 0 <= i < QuestionsScanned(questions) :: Get(after, "parameters").elems[i] == ParameterOf(questions[i]))
      && (forall k | k != "parameters" :: Get(after, k) == Get(model, k))
  {
    if !noReconstruct && ReachesQuestions(model, checkForId) {
      NamedPropertyOfObject(model, "name");
      var questions := Get(model, "questions").elems;
      var n := QuestionsScanned(questions);
      ParametersOfElements(questions[..n]);
      var after := ModelAfterValidation(model, checkForId, noReconstruct);
      LookupPut(model.fields, "parameters", Arr(ParametersOf(questions[..n])), "parameters");
      forall k | k != "parameters" ensures Get(after, k) == Get(model, k) {
        LookupPut(model.fields, "parameters", Arr(ParametersOf(questions[..n])), k);
      }
    }
  }

  /** Validating the validated model again gives the same verdict: rebuilding parameters changes nothing validateModel reads. */
  lemma RevalidationAgrees(model: Json, checkForId: bool, noReconstruct: bool)
    ensures ModelVerdict(ModelAfterValidation(model, checkForId, noReconstruct), checkForId) == ModelVerdict(model, checkForId)
  {
    if !noReconstruct && ReachesQuestions(model, checkForId) {
      NamedPropertyOfObject(model, "name");
      var questions := Get(model, "questions").elems;
      var n := QuestionsScanned(questions);
      UnreadKeyIgnored(model, checkForId, "parameters", Arr(ParametersOf(questions[..n])));
    }
  }

  // ---------------------------------------------------------------------
  // _validateObjectsInModel
  // ---------------------------------------------------------------------

  /** One object as _validateObjectsInModel wants it, described field by field. */
  predicate ObjectWellFormed(index: map<string, Json>, attributes: Json, obj: Json)
  {
    && IsObject(obj)
    && Get(obj, "name").Str?
    && IsObject(Get(obj, "attributes"))
    && Get(attributes, "length") == Num(|OwnEntries(Get(obj, "attributes"))|)
    && forall e | e in OwnEntries(Get(obj, "attributes")) :: e.0 in index && ValueFits(index[e.0], e.1)
  }

  /**
   * Once the model's attributes are indexed, _validateObjectsInModel
   * accepts exactly when every object has a string name and an attributes
   * object with one key per model attribute, each holding a value that
   * fits that attribute.
   */
  lemma ObjectsAcceptedIff(model: Json, objects: Json)
    requires !model.Null? && !model.Undefined?
    requires IndexBy(Elements(Get(model, "attributes")), "name").Normal?
    ensures var index := IndexBy(Elements(Get(model, "attributes")), "name").value;
      ObjectsVerdict(model, objects) == Normal(Passed) <==>
      forall o | o in Elements(objects) :: ObjectWellFormed(index, Get(model, "attributes"), o)
  {
    var index := IndexBy(Elements(Get(model, "attributes")), "name").value;
    var attributes := Get(model, "attributes");
    var objs := Elements(objects);
    forall o ensures ObjectConforms(index, attributes, o) <==> ObjectWellFormed(index, attributes, o) {
      var entries := OwnEntries(Get(o, "attributes"));
      if ObjectWellFormed(index, attributes, o) {
        assert forall i | 0 <= i < |entries| :: entries[i] in entries;
      }
      if ObjectConforms(index, attributes, o) {
        assert forall e | e in entries :: exists i | 0 <= i < |entries| :: entries[i] == e;
      }
    }
    if ObjectsVerdict(model, objects) == Normal(Passed) {
      forall o | o in objs ensures ObjectWellFormed(index, attributes, o) {
        var i :| 0 <= i < |objs| && objs[i] == o;
      }
    }
  }

  /**
   * When every attribute can be read and is named by a string, a number,
   * an array or an object, `_.find` by name (countObjectsStats) and the
   * index by name (_validateObjectsInModel) agree on which keys name an
   * attribute: a number name `5` is found under the key `"5"` by both.
   */
  lemma FindAgreesWithIndex(attrs: seq<Json>, k: string)
    requires forall i | 0 <= i < |attrs| :: !attrs[i].Null? && !attrs[i].Undefined?
    requires forall i | 0 <= i < |attrs| :: Get(attrs[i], "name").Str? || Get(attrs[i], "name").Num?
                                            || Get(attrs[i], "name").Arr? || Get(attrs[i], "name").Obj?
    ensures IndexBy(attrs, "name").Normal? && FindAttribute(attrs, k).Normal?
    ensures FindAttribute(attrs, k).value.Some? <==> k in IndexBy(attrs, "name").value
  {
    IndexByThrows(attrs, "name");
    IndexByKeys(attrs, "name");
    FindAttributeFirst(attrs, k);
    forall i | 0 <= i < |attrs| ensures LooselyEquals(Get(attrs[i], "name"), k) <==> ToText(Get(attrs[i], "name")) == k {
      LooselyEqualsText(Get(attrs[i], "name"), k);
    }
    if k in IndexBy(attrs, "name").value {
      var i :| 0 <= i < |attrs| && ToText(Get(attrs[i], "name")) == k;
      assert !NameDiffers(attrs[i], k);
      assert !PassedOver(attrs, |attrs|, k);
    }
  }

  /** The first `i` entries of an object name known attributes and hold values that fit them. */
  predicate EntriesFit(index: map<string, Json>, entries: seq<(string, Json)>, i: int)
    requires 0 <= i <= |entries|
  {
    forall j | 0 <= j < i :: entries[j].0 in index && ValueFits(index[entries[j].0], entries[j].1)
  }

  /**
   * The attribute check of an object throws exactly when an entry naming
   * no model attribute comes before any entry whose value does not fit:
   * an unknown attribute anywhere throws unless a bad value stops the scan
   * first.
   */
  lemma {:induction false} UnknownAttributeThrows(index: map<string, Json>, entries: seq<(string, Json)>)
    ensures CheckObjectAttributes(index, entries).Thrown? <==>
      exists i | 0 <= i < |entries| :: entries[i].0 !in index && EntriesFit(index, entries, i)
    ensures CheckObjectAttributes(index, entries).Thrown? ==> CheckObjectAttributes(index, entries) == Thrown("TypeError")
  {
    if |entries| == 0 {
    } else if entries[0].0 !in index {
      assert EntriesFit(index, entries, 0);
    } else if !ValueFits(index[entries[0].0], entries[0].1) {
      forall i | 0 <= i < |entries| && entries[i].0 !in index ensures !EntriesFit(index, entries, i) {
        assert i > 0;
      }
    } else {
      var tail := entries[1..];
      UnknownAttributeThrows(index, tail);
      assert forall j | 0 <= j < |tail| :: tail[j] == entries[j + 1];
      if CheckObjectAttributes(index, tail).Thrown? {
        var i :| 0 <= i < |tail| && tail[i].0 !in index && EntriesFit(index, tail, i);
        forall j | 0 <= j < i + 1 ensures entries[j].0 in index && ValueFits(index[entries[j].0], entries[j].1) {
          if j > 0 { assert tail[j - 1] == entries[j]; }
        }
        assert EntriesFit(index, entries, i + 1);
      }
      if exists i | 0 <= i < |entries| :: entries[i].0 !in index && EntriesFit(index, entries, i) {
        var i :| 0 <= i < |entries| && entries[i].0 !in index && EntriesFit(index, entries, i);
        assert i > 0;
        assert EntriesFit(index, tail, i - 1);
      }
    }
  }

  // ---------------------------------------------------------------------
  // countObjectsStats
  // ---------------------------------------------------------------------

  /** In one object, exactly the entries of number-typed attributes are observed. */
  lemma {:induction false} EntryObservationsNumberTyped(attrs: seq<Json>, entries: seq<(string, Json)>)
    requires EntryObservations(attrs, entries).Normal?
    ensures forall e | e in EntryObservations(attrs, entries).value :: e in entries && NumberTyped(attrs, e.0)
    ensures forall e | e in entries && NumberTyped(attrs, e.0) :: e in EntryObservations(attrs, entries).value
  {
    if |entries| > 0 {
      EntryObservationsNumberTyped(attrs, entries[1..]);
      assert forall e | e in entries && e != entries[0] :: e in entries[1..];
    }
  }

  /** An entry of one of the objects, in `_.forEach` and `_.forOwn` order. */
  predicate EntryOfObject(objs: seq<Json>, e: (string, Json))
  {
    exists j | 0 <= j < |objs| :: e in OwnEntries(Get(objs[j], "attributes"))
  }

  /**
   * Over all objects, exactly the entries of number-typed attributes are
   * observed.
   */
  lemma {:induction false} ObjectObservationsNumberTyped(attrs: seq<Json>, objs: seq<Json>)
    requires ObjectObservations(attrs, objs).Normal?
    ensures forall e | e in ObjectObservations(attrs, objs).value :: EntryOfObject(objs, e) && NumberTyped(attrs, e.0)
    ensures forall e | EntryOfObject(objs, e) && NumberTyped(attrs, e.0) :: e in ObjectObservations(attrs, objs).value
  {
    if |objs| > 0 {
      var first := OwnEntries(Get(objs[0], "attributes"));
      EntryObservationsNumberTyped(attrs, first);
      ObjectObservationsNumberTyped(attrs, objs[1..]);
      var all := ObjectObservations(attrs, objs).value;
      assert all == EntryObservations(attrs, first).value + ObjectObservations(attrs, objs[1..]).value;
      forall e | e in all ensures EntryOfObject(objs, e) {
        if e !in EntryObservations(attrs, first).value {
          var j :| 0 <= j < |objs[1..]| && e in OwnEntries(Get(objs[1..][j], "attributes"));
          assert objs[1..][j] == objs[j + 1];
        }
      }
      forall e | EntryOfObject(objs, e) && NumberTyped(attrs, e.0) ensures e in all {
        var j :| 0 <= j < |objs| && e in OwnEntries(Get(objs[j], "attributes"));
        if j > 0 {
          assert objs[1..][j - 1] == objs[j];
          assert EntryOfObject(objs[1..], e);
        }
      }
    }
  }

  /** Folding one more observation is observing it after the fold. */
  lemma FoldObserveSnoc(stats: map<string, Stat>, observations: seq<(string, Json)>, name: string, value: Json)
    ensures FoldObserve(stats, observations + [(name, value)]) == Observe(FoldObserve(stats, observations), name, value)
  {
    FoldObserveAppend(stats, observations, [(name, value)]);
  }

  /** The statistics have an entry for exactly the attributes observed. */
  lemma {:induction false} StatsOfKeys(observations: seq<(string, Json)>)
    ensures forall k :: k in StatsOf(observations) <==> exists i | 0 <= i < |observations| :: observations[i].0 == k
    decreases |observations|
  {
    if |observations| > 0 {
      var n := |observations| - 1;
      var init := observations[..n];
      StatsOfKeys(init);
      FoldObserveSnoc(map[], init, observations[n].0, observations[n].1);
      assert init + [observations[n]] == observations;
      forall k ensures k in StatsOf(observations) <==> exists i | 0 <= i < |observations| :: observations[i].0 == k {
        if k in StatsOf(init) {
          var i :| 0 <= i < n && init[i].0 == k;
          assert observations[i].0 == k;
        }
      }
    }
  }

  /**
   * `max` of an attribute is at least 0 and at least every number observed
   * for it, and it is either the start value 0 or one of those numbers; so
   * it is the greatest observed number whenever one is positive.
   */
  lemma {:induction false} StatsOfMax(observations: seq<(string, Json)>, k: string)
    requires k in StatsOf(observations)
    ensures var m := StatsOf(observations)[k].max;
      && m >= 0
      && (forall i | 0 <= i < |observations| && observations[i].0 == k && observations[i].1.Num? :: observations[i].1.n <= m)
      && (m == 0 || exists i | 0 <= i < |observations| :: observations[i] == (k, Num(m)))
    decreases |observations|
  {
    var n := |observations| - 1;
    var init := observations[..n];
    var last := observations[n];
    FoldObserveSnoc(map[], init, last.0, last.1);
    assert init + [last] == observations;
    assert forall i | 0 <= i < n :: init[i] == observations[i];
    if k in StatsOf(init) {
      StatsOfMax(init, k);
    } else {
      StatsOfKeys(init);
    }
  }

  /**
   * `min` of an attribute stays `Infinity` exactly when no number was
   * observed for it; otherwise it is the least number observed for it.
   */
  lemma {:induction false} StatsOfMin(observations: seq<(string, Json)>, k: string)
    requires k in StatsOf(observations)
    ensures var b := StatsOf(observations)[k].min;
      && (b.Infinity? <==> forall i | 0 <= i < |observations| && observations[i].0 == k :: !observations[i].1.Num?)
      && (b.Finite? ==>
            && (exists i | 0 <= i < |observations| :: observations[i] == (k, Num(b.n)))
            && forall i | 0 <= i < |observations| && observations[i].0 == k && observations[i].1.Num? :: b.n <= observations[i].1.n)
    decreases |observations|
  {
    var n := |observations| - 1;
    var init := observations[..n];
    var last := observations[n];
    FoldObserveSnoc(map[], init, last.0, last.1);
    assert init + [last] == observations;
    assert forall i | 0 <= i < n :: init[i] == observations[i];
    if k in StatsOf(init) {
      StatsOfMin(init, k);
    } else {
      StatsOfKeys(init);
    }
  }

  /** Every observed attribute has an entry, and every observed number lies between its `min` and `max`. */
  lemma ObservedNumbersBounded(observations: seq<(string, Json)>)
    ensures forall e | e in observations ::
      && e.0 in StatsOf(observations)
      && (e.1.Num? ==>
            && StatsOf(observations)[e.0].max >= e.1.n
            && StatsOf(observations)[e.0].min.Finite?
            && StatsOf(observations)[e.0].min.n <= e.1.n)
  {
    StatsOfKeys(observations);
    forall e | e in observations
      ensures e.1.Num? ==> StatsOf(observations)[e.0].max >= e.1.n
      ensures e.1.Num? ==> StatsOf(observations)[e.0].min.Finite? && StatsOf(observations)[e.0].min.n <= e.1.n
    {
      var i :| 0 <= i < |observations| && observations[i] == e;
      StatsOfMax(observations, e.0);
      StatsOfMin(observations, e.0);
    }
  }

  /**
   * countObjectsStats: every number-typed attribute an object holds has an
   * entry, and every number an object holds for it lies between its `min`
   * and `max`.
   */
  lemma ObjectsStatsBound(model: Json)
    requires ObjectsStats(model).Normal?
    ensures var attrs := Elements(Get(model, "attributes"));
      var stats := ObjectsStats(model).value;
      forall e | EntryOfObject(Elements(Get(model, "objects")), e) && NumberTyped(attrs, e.0) ::
        && e.0 in stats
        && (e.1.Num? ==> stats[e.0].max >= e.1.n && stats[e.0].min.Finite? && stats[e.0].min.n <= e.1.n)
  {
    var attrs := Elements(Get(model, "attributes"));
    var objs := Elements(Get(model, "objects"));
    assert Member(model, "objects") == Normal(Get(model, "objects"));
    var observations := ObjectObservations(attrs, objs).value;
    assert ObjectsStats(model).value == StatsOf(observations);
    ObjectObservationsNumberTyped(attrs, objs);
    ObservedNumbersBounded(observations);
  }

  /**
   * countObjectsStats: `max` is the start value 0 or a number some object
   * holds; `min` stays `Infinity` exactly when no object holds a number
   * for the attribute, and is otherwise a number some object holds.
   */
  lemma ObjectsStatsAttained(model: Json)
    requires ObjectsStats(model).Normal?
    ensures var objs := Elements(Get(model, "objects"));
      var stats := ObjectsStats(model).value;
      forall k | k in stats ::
        && (stats[k].max == 0 || EntryOfObject(objs, (k, Num(stats[k].max))))
        && (stats[k].min.Infinity? <==> forall e | EntryOfObject(objs, e) && e.0 == k :: !e.1.Num?)
        && (stats[k].min.Finite? ==> EntryOfObject(objs, (k, Num(stats[k].min.n))))
  {
    var attrs := Elements(Get(model, "attributes"));
    var objs := Elements(Get(model, "objects"));
    assert Member(model, "objects") == Normal(Get(model, "objects"));
    var observations := ObjectObservations(attrs, objs).value;
    assert ObjectsStats(model).value == StatsOf(observations);
    ObjectObservationsNumberTyped(attrs, objs);
    StatsOnlyForNumberAttributes(model);
    forall k | k in StatsOf(observations)
      ensures StatsOf(observations)[k].max == 0 || EntryOfObject(objs, (k, Num(StatsOf(observations)[k].max)))
      ensures StatsOf(observations)[k].min.Infinity? <==> forall e | EntryOfObject(objs, e) && e.0 == k :: !e.1.Num?
      ensures StatsOf(observations)[k].min.Finite? ==> EntryOfObject(objs, (k, Num(StatsOf(observations)[k].min.n)))
    {
      var s := StatsOf(observations)[k];
      StatsOfMax(observations, k);
      StatsOfMin(observations, k);
      if s.max != 0 {
        var i :| 0 <= i < |observations| && observations[i] == (k, Num(s.max));
        assert observations[i] in observations;
      }
      if s.min.Infinity? {
        forall e | EntryOfObject(objs, e) && e.0 == k ensures !e.1.Num? {
          assert e in observations;
        }
      } else {
        var i :| 0 <= i < |observations| && observations[i] == (k, Num(s.min.n));
        assert observations[i] in observations;
      }
    }
  }

  /** countObjectsStats only creates entries for attributes the model declares with type number. */
  lemma StatsOnlyForNumberAttributes(model: Json)
    requires ObjectsStats(model).Normal?
    ensures forall k | k in ObjectsStats(model).value :: NumberTyped(Elements(Get(model, "attributes")), k)
  {
    var attrs := Elements(Get(model, "attributes"));
    var objs := Elements(Get(model, "objects"));
    assert Member(model, "objects") == Normal(Get(model, "objects"));
    var observations := ObjectObservations(attrs, objs).value;
    assert ObjectsStats(model).value == StatsOf(observations);
    ObjectObservationsNumberTyped(attrs, objs);
    StatsOfKeys(observations);
    forall k | k in StatsOf(observations) ensures NumberTyped(attrs, k) {
      var i :| 0 <= i < |observations| && observations[i].0 == k;
      assert observations[i] in observations;
    }
  }
}

/**
 * The verification-step schema and the proof schema (an array of steps), as
 * zod applies them to a decoded JSON value: `z.object` accepts only a plain
 * object and keeps only the declared keys, `z.string()` accepts any string,
 * `z.array(z.string())` any array of strings (the empty one included), and
 * `.optional()` accepts a missing key but not `null`.
 *
 * The schema checks each step's shape and nothing across steps: the id's
 * letter need not agree with `type`, ids may repeat, and dependencies may
 * name ids that do not exist or come later.
 */
module Steps {
  import opened Wrappers
  import opened JsonValues
  import opened StepIds

  /** The closed enumeration of step types. */
  datatype StepType =
    | Assumption | Goal | Hypothesis | Annotation | Comprehension | Interpretation | Derivation

  /** The string that stands for each step type in the schema's enum. */
  function Name(t: StepType): string
  {
    match t
    case Assumption => "assumption"
    case Goal => "goal"
    case Hypothesis => "hypothesis"
    case Annotation => "annotation"
    case Comprehension => "comprehension"
    case Interpretation => "interpretation"
    case Derivation => "derivation"
  }

  /** The id letter the schema's comments pair with each type. The schema
      itself never compares the two. */
  function Letter(t: StepType): char
  {
    match t
    case Assumption => 'A'
    case Goal => 'G'
    case Hypothesis => 'H'
    case Annotation => 'N'
    case Comprehension => 'C'
    case Interpretation => 'P'
    case Derivation => 'D'
  }

  /** `z.enum([...])` on a string: accepted exactly when it is one of the seven names. */
  function ParseStepType(s: string): (r: Option<StepType>)
    ensures r.Some? ==> Name(r.value) == s
    ensures r.None? <==> s !in {"assumption", "goal", "hypothesis", "annotation",
                                "comprehension", "interpretation", "derivation"}
  {
    match s
    case "assumption" => Some(Assumption)
    case "goal" => Some(Goal)
    case "hypothesis" => Some(Hypothesis)
    case "annotation" => Some(Annotation)
    case "comprehension" => Some(Comprehension)
    case "interpretation" => Some(Interpretation)
    case "derivation" => Some(Derivation)
    case _ => None
  }

  lemma ParseName(t: StepType)
    ensures ParseStepType(Name(t)) == Some(t)
  {
  }

  /** A step as the schema returns it, with only the declared fields. */
  datatype Step = Step(
    id: string,
    kind: StepType,
    derivation: string,
    reason: string,
    rules: seq<string>,
    dependencies: Option<seq<string>>)

  /** What the schema demands of a well-typed step beyond its shape. */
  predicate ValidStep(s: Step)
  {
    ValidId(s.id)
  }

  /** A proof is valid when every step is; nothing relates one step to another. */
  predicate ValidProof(ps: seq<Step>)
  {
    forall i :: 0 <= i < |ps| ==> ValidStep(ps[i])
  }

  /** The keys of the step object; any other key is stripped. */
  const StepKeys: set<string> := {"id", "type", "derivation", "reason", "rules", "dependencies"}

  function StringsToJson(xs: seq<string>): (r: seq<Json>)
    ensures |r| == |xs| && forall i :: 0 <= i < |xs| ==> r[i] == JStr(xs[i])
  {
    seq(|xs|, i requires 0 <= i < |xs| => JStr(xs[i]))
  }

  /** The JSON object a step is written as (no `dependencies` key when absent). */
  function StepToJson(s: Step): Json
  {
    var fields := map[
      "id" := JStr(s.id),
      "type" := JStr(Name(s.kind)),
      "derivation" := JStr(s.derivation),
      "reason" := JStr(s.reason),
      "rules" := JArr(StringsToJson(s.rules))];
    JObj(if s.dependencies.Some? then fields["dependencies" := JArr(StringsToJson(s.dependencies.value))]
         else fields)
  }

  function ProofToJson(ps: seq<Step>): (r: Json)
    ensures r.JArr? && |r.items| == |ps|
    ensures forall i :: 0 <= i < |ps| ==> r.items[i] == StepToJson(ps[i])
  {
    JArr(seq(|ps|, i requires 0 <= i < |ps| => StepToJson(ps[i])))
  }

  /** The declared part of an object: what `z.object` looks at and keeps. */
  function Declared(fields: map<string, Json>): (r: map<string, Json>)
    ensures r.Keys == fields.Keys * StepKeys
    ensures forall k :: k in r ==> r[k] == fields[k]
  {
    map k | k in fields && k in StepKeys :: fields[k]
  }

  /** `z.string()` on an item of an array. */
  function StringItems(items: seq<Json>): (r: Option<seq<string>>)
    ensures r.Some? <==> forall i :: 0 <= i < |items| ==> items[i].JStr?
    ensures r.Some? ==> StringsToJson(r.value) == items
    decreases |items|
  {
    if items == [] then Some([])
    else if !items[0].JStr? then None
    else
      match StringItems(items[1..])
      case None => None
      case Some(tail) =>
        var xs := [items[0].s] + tail;
        assert StringsToJson(xs) == items by {
          assert forall i :: 1 <= i < |items| ==> items[i] == items[1..][i - 1] == JStr(tail[i - 1]);
        }
        Some(xs)
  }

  /** `z.array(z.string())`. */
  function StringList(j: Json): (r: Option<seq<string>>)
    ensures r.Some? ==> j == JArr(StringsToJson(r.value))
  {
    if j.JArr? then StringItems(j.items) else None
  }

  lemma {:induction false} StringItemsOfStrings(xs: seq<string>)
    ensures StringItems(StringsToJson(xs)) == Some(xs)
    decreases |xs|
  {
    if xs != [] {
      assert StringsToJson(xs)[1..] == StringsToJson(xs[1..]);
      StringItemsOfStrings(xs[1..]);
      assert xs == [xs[0]] + xs[1..];
    }
  }

  /** A required string field. */
  function StringField(fields: map<string, Json>, key: string): (r: Option<string>)
    ensures r.Some? <==> key in fields && fields[key].JStr?
    ensures r.Some? ==> fields[key] == JStr(r.value)
  {
    if key in fields && fields[key].JStr? then Some(fields[key].s) else None
  }

  /** The optional `dependencies` field: a missing key gives `Some(None)`,
      an array of strings `Some(Some(deps))`, anything else (`null` included)
      fails. */
  function DependenciesField(fields: map<string, Json>): (r: Option<Option<seq<string>>>)
    ensures "dependencies" !in fields ==> r == Some(None)
    ensures "dependencies" in fields ==>
      (r.Some? <==> fields["dependencies"].JArr? &&
                    forall i :: 0 <= i < |fields["dependencies"].items| ==> fields["dependencies"].items[i].JStr?)
    ensures r.Some? ==> (r.value.Some? <==> "dependencies" in fields)
    ensures r.Some? && r.value.Some? ==>
      "dependencies" in fields && fields["dependencies"] == JArr(StringsToJson(r.value.value))
  {
    if "dependencies" !in fields then Some(None)
    else
      var deps :- StringList(fields["dependencies"]);
      Some(Some(deps))
  }

  /** `VerificationStepSchema.parse` on one decoded value. */
  function ValidateStep(j: Json): (r: Option<Step>)
    ensures r.Some? ==> ValidStep(r.value)
  {
    if !j.JObj? then None
    else
      var fields := j.fields;
      var id :- StringField(fields, "id");
      if !MatchesIdPattern(id) then None
      else
        var typeName :- StringField(fields, "type");
        var kind :- ParseStepType(typeName);
        var derivation :- StringField(fields, "derivation");
        var reason :- StringField(fields, "reason");
        var rules :- if "rules" in fields then StringList(fields["rules"]) else None;
        var dependencies :- DependenciesField(fields);
        MatchesIdPatternIff(id);
        Some(Step(id, kind, derivation, reason, rules, dependencies))
  }

  /** Undeclared keys play no part: validation sees only the declared fields. */
  lemma UndeclaredKeysIgnored(fields: map<string, Json>)
    ensures ValidateStep(JObj(fields)) == ValidateStep(JObj(Declared(fields)))
  {
  }

  /** Writing a step out and validating it gives the step back exactly when
      its id matches the pattern: any type, any derivation and reason, any
      rules (none included), and dependencies absent or any list of strings. */
  lemma ValidateStepToJson(s: Step)
    ensures ValidateStep(StepToJson(s)) == if ValidStep(s) then Some(s) else None
  {
    MatchesIdPatternIff(s.id);
    StringItemsOfStrings(s.rules);
    if s.dependencies.Some? {
      StringItemsOfStrings(s.dependencies.value);
    }
    var fields := StepToJson(s).fields;
    assert fields["id"] == JStr(s.id);
    assert fields["type"] == JStr(Name(s.kind));
    assert fields["derivation"] == JStr(s.derivation);
    assert fields["reason"] == JStr(s.reason);
    assert fields["rules"] == JArr(StringsToJson(s.rules));
    ParseName(s.kind);
  }

  /** What validation returns is the declared part of its input, decoded. */
  lemma ValidateStepStrips(j: Json, s: Step)
    requires ValidateStep(j) == Some(s)
    ensures j.JObj? && StepToJson(s).fields == Declared(j.fields)
  {
  }

  /** The step schema accepts a value, returning `s`, exactly when the value
      is an object whose declared part is the encoding of `s` and `s`'s id
      matches the pattern. */
  lemma ValidateStepIff(j: Json, s: Step)
    ensures ValidateStep(j) == Some(s) <==>
      j.JObj? && Declared(j.fields) == StepToJson(s).fields && ValidStep(s)
  {
    if ValidateStep(j) == Some(s) {
      ValidateStepStrips(j, s);
    }
    if j.JObj? && Declared(j.fields) == StepToJson(s).fields && ValidStep(s) {
      UndeclaredKeysIgnored(j.fields);
      ValidateStepToJson(s);
    }
  }

  /** A `type` outside the enumeration, or a `null` in place of the optional
      dependencies, is rejected. */
  lemma RejectedShapes(fields: map<string, Json>)
    ensures "type" in fields && fields["type"].JStr? && ParseStepType(fields["type"].s).None?
            ==> ValidateStep(JObj(fields)) == None
    ensures "dependencies" in fields && fields["dependencies"] == JNull
            ==> ValidateStep(JObj(fields)) == None
  {
  }

  /** `z.array(VerificationStepSchema)` on the items of an array: accepted
      exactly when every item is, with each item's validated step in place. */
  function ValidateSteps(items: seq<Json>): (r: Option<seq<Step>>)
    ensures r.Some? <==> forall i :: 0 <= i < |items| ==> ValidateStep(items[i]).Some?
    ensures r.Some? ==> |r.value| == |items|
    ensures r.Some? ==> forall i :: 0 <= i < |items| ==> ValidateStep(items[i]) == Some(r.value[i])
    decreases |items|
  {
    if items == [] then Some([])
    else
      var head :- ValidateStep(items[0]);
      var tail :- ValidateSteps(items[1..]);
      assert forall i :: 1 <= i < |items| ==> items[i] == items[1..][i - 1];
      Some([head] + tail)
  }

  /** `VerificationOutputSchema.parse`: the value must be an array of steps. */
  function ValidateProof(j: Json): (r: Option<seq<Step>>)
    ensures r.Some? ==> j.JArr? && ValidProof(r.value)
    ensures j.JArr? ==> r == ValidateSteps(j.items)
  {
    if j.JArr? then ValidateSteps(j.items) else None
  }

  /** Writing a proof out and validating it gives it back exactly when every
      step's id matches the pattern. */
  lemma ValidateProofToJson(ps: seq<Step>)
    ensures ValidateProof(ProofToJson(ps)) == if ValidProof(ps) then Some(ps) else None
  {
    var items := ProofToJson(ps).items;
    forall i | 0 <= i < |ps|
      ensures ValidateStep(items[i]) == if ValidStep(ps[i]) then Some(ps[i]) else None
    {
      ValidateStepToJson(ps[i]);
    }
    if ValidProof(ps) {
      var r := ValidateSteps(items);
      assert r.Some?;
      assert r.value == ps;
    }
  }

  /** Validating an already validated proof again returns it unchanged, so the
      route's second schema check after the output parser's own cannot fail. */
  lemma RevalidateProof(j: Json)
    requires ValidateProof(j).Some?
    ensures ValidateProof(ProofToJson(ValidateProof(j).value)) == ValidateProof(j)
  {
    ValidateProofToJson(ValidateProof(j).value);
  }

  /** The empty array is a valid proof. */
  lemma EmptyProofAccepted()
    ensures ValidateProof(JArr([])) == Some([])
  {
  }

  /** Reordering the steps does not change whether the proof is accepted. */
  lemma {:induction false} ReorderPreservesAcceptance(items: seq<Json>, reordered: seq<Json>)
    requires multiset(items) == multiset(reordered)
    ensures ValidateProof(JArr(items)).Some? <==> ValidateProof(JArr(reordered)).Some?
  {
    if ValidateProof(JArr(items)).Some? {
      forall i | 0 <= i < |reordered| ensures ValidateStep(reordered[i]).Some? {
        assert reordered[i] in multiset(items);
        var k :| 0 <= k < |items| && items[k] == reordered[i];
      }
    }
    if ValidateProof(JArr(reordered)).Some? {
      forall i | 0 <= i < |items| ensures ValidateStep(items[i]).Some? {
        assert items[i] in multiset(reordered);
        var k :| 0 <= k < |reordered| && reordered[k] == items[i];
      }
    }
  }

  /** Removing one step from an accepted proof leaves an accepted proof: the
      same steps without the removed one. */
  lemma {:induction false} RemovalPreservesAcceptance(items: seq<Json>, k: nat)
    requires ValidateProof(JArr(items)).Some? && k < |items|
    ensures ValidateProof(JArr(items[..k] + items[k + 1..])) ==
            Some(ValidateProof(JArr(items)).value[..k] + ValidateProof(JArr(items)).value[k + 1..])
  {
    var ps := ValidateProof(JArr(items)).value;
    var rest := items[..k] + items[k + 1..];
    var expected := ps[..k] + ps[k + 1..];
    forall i | 0 <= i < |rest| ensures ValidateStep(rest[i]) == Some(expected[i]) {
      if i < k {
        assert rest[i] == items[i] && expected[i] == ps[i];
      } else {
        assert rest[i] == items[i + 1] && expected[i] == ps[i + 1];
      }
    }
    var r := ValidateSteps(rest);
    assert r.Some?;
    assert r.value == expected;
  }

  /** Nothing across steps is checked. This two-step proof is accepted although
      an id with letter D has type assumption, both steps share the id D1, and
      the dependencies name the step itself and a step D7 that does not exist. */
  lemma NoCrossStepChecks()
    ensures var s := Step("D1", Assumption, "A |≡ #(Na)", "initial belief", [], Some(["D1", "D7"]));
      && s.id[0] != Letter(s.kind)
      && ValidateProof(ProofToJson([s, s])) == Some([s, s])
  {
    var s := Step("D1", Assumption, "A |≡ #(Na)", "initial belief", [], Some(["D1", "D7"]));
    assert ValidStep(s) by {
      assert IsAsciiDigit(s.id[1]);
    }
    ValidateProofToJson([s, s]);
  }
}

/**
 * The Level 2 rubric: seven fixed predicates over a parsed Kubernetes
 * Deployment manifest, evaluated without short-circuiting, each failure
 * reported by one fixed message in declaration order.
 */
module Rubric {
  import opened Common
  import opened Yaml

  /** The outcome of `yaml.safe_load(text)`: a tree, or the text of the exception it raised. */
  datatype Parsed = Tree(tree: Value) | ParseError(message: string)

  /** The response body: overall pass, the failure messages and the named checks in order. */
  datatype Verdict = Verdict(ok: bool, errors: seq<string>, checks: seq<(string, bool)>)

  /** What the endpoint answers: a verdict, or HTTP 500 when an AttributeError escapes the handler. */
  datatype Response = Answered(verdict: Verdict) | ServerError

  const CheckNames: seq<string> :=
    ["apiVersion", "kindDeployment", "metadataName", "replicas", "image", "probes", "resources"]

  const Messages: seq<string> := [
    "apiVersion must be apps/v1",
    "kind must be Deployment",
    "metadata.name is required",
    "spec.replicas must be >= 2",
    "containers[0].image is required",
    "readinessProbe and livenessProbe are required",
    "resources.requests/limits (cpu,memory) are required"
  ]

  const ParseErrorPrefix := "YAML parse error: "

  // ---- the document walk, as the handler writes it ----

  /** `yaml.safe_load(...) or {}`: an empty document becomes an empty mapping. */
  function Document(tree: Value): Value { Or(tree, Empty) }

  /** `doc.get("spec") or {}` */
  function Spec(doc: Value): Value { Or(Field(doc, "spec"), Empty) }

  /** `(doc.get("spec") or {}).get("template") or {}` */
  function Template(doc: Value): Value { Or(Field(Spec(doc), "template"), Empty) }

  /** `tpl.get("metadata") and tpl.get("spec") or tpl.get("spec") or {}` */
  function PodSpec(doc: Value): Value
  {
    var tpl := Template(doc);
    Or(Or(And(Field(tpl, "metadata"), Field(tpl, "spec")), Field(tpl, "spec")), Empty)
  }

  /** `podspec.get("containers") or []` */
  function Containers(doc: Value): Value { Or(Field(PodSpec(doc), "containers"), List([])) }

  /** `containers[0] if isinstance(containers, list) and containers else {}` */
  function FirstContainer(doc: Value): Value
  {
    var cs := Containers(doc);
    if cs.List? && cs.items != [] then cs.items[0] else Empty
  }

  /**
   * One of the unguarded `.get` calls is made on something that is not a
   * dict: the document itself, `spec`, the pod template or the pod spec.
   */
  predicate Raises(doc: Value)
  {
    !doc.Map? || !Spec(doc).Map? || !Template(doc).Map? || !PodSpec(doc).Map?
  }

  // ---- the seven predicates ----

  predicate ApiVersionOk(doc: Value) { doc.Map? && Field(doc, "apiVersion") == Str("apps/v1") }

  predicate KindOk(doc: Value) { Field(doc, "kind") == Str("Deployment") }

  predicate MetadataNameOk(doc: Value)
  {
    var meta := Or(Field(doc, "metadata"), Empty);
    meta.Map? && Truthy(Field(meta, "name"))
  }

  /** `isinstance(replicas, int) and replicas >= 2`; a bool is an int below 2. */
  predicate ReplicasOk(doc: Value)
  {
    var r := Field(Spec(doc), "replicas");
    r.Int? && r.i >= 2
  }

  /** `isinstance(c0, dict) and c0.get("image")` */
  predicate HasImage(c0: Value) { c0.Map? && Truthy(Field(c0, "image")) }

  predicate ImageOk(doc: Value) { HasImage(FirstContainer(doc)) }

  /** `isinstance(c0, dict) and c0.get("readinessProbe") and c0.get("livenessProbe")` */
  predicate HasProbes(c0: Value)
  {
    c0.Map? && Truthy(Field(c0, "readinessProbe")) && Truthy(Field(c0, "livenessProbe"))
  }

  predicate ProbesOk(doc: Value) { HasProbes(FirstContainer(doc)) }

  /** `_has(obj, k1, k2)` */
  predicate Has(obj: Value, k1: string, k2: string)
  {
    obj.Map? && Field(obj, k1).Map? && Truthy(Field(Field(obj, k1), k2))
  }

  /** The resources test on the first container. */
  predicate HasResources(c0: Value)
  {
    var res := if c0.Map? then Field(c0, "resources") else Null;
    Has(res, "requests", "cpu") && Has(res, "requests", "memory")
    && Has(res, "limits", "cpu") && Has(res, "limits", "memory")
  }

  predicate ResourcesOk(doc: Value) { HasResources(FirstContainer(doc)) }

  /** The seven predicates in declaration order. */
  function Outcomes(doc: Value): (bs: seq<bool>)
    ensures |bs| == |CheckNames|
  {
    [ApiVersionOk(doc), KindOk(doc), MetadataNameOk(doc), ReplicasOk(doc),
     ImageOk(doc), ProbesOk(doc), ResourcesOk(doc)]
  }

  // ---- aggregation ----

  /** The `checks` dict: every rubric name, in declaration order, with its outcome. */
  function Labelled(bs: seq<bool>): (checks: seq<(string, bool)>)
    requires |bs| == |CheckNames|
  {
    [(CheckNames[0], bs[0]), (CheckNames[1], bs[1]), (CheckNames[2], bs[2]), (CheckNames[3], bs[3]),
     (CheckNames[4], bs[4]), (CheckNames[5], bs[5]), (CheckNames[6], bs[6])]
  }

  /**
   * The `errors` list once the first `n` of the outcomes `bs` are recorded:
   * one message per failed check, in declaration order.
   */
  function FailureMessages(bs: seq<bool>, n: nat): seq<string>
    requires |bs| == |CheckNames| && n <= |CheckNames|
  {
    if n == 0 then []
    else FailureMessages(bs, n - 1) + (if bs[n - 1] then [] else [Messages[n - 1]])
  }

  /** The `checks` values once the first `n` outcomes are recorded: later checks still hold False. */
  function RecordedAfter(bs: seq<bool>, n: nat): (ps: seq<bool>)
    requires |bs| == |CheckNames| && n <= |CheckNames|
    ensures |ps| == |CheckNames|
  {
    seq(|CheckNames|, j requires 0 <= j < |CheckNames| => j < n && bs[j])
  }

  /** Entry `i` of the `checks` dict is the name and outcome of check `i`. */
  lemma LabelledValues(bs: seq<bool>)
    requires |bs| == |CheckNames|
    ensures |Labelled(bs)| == |CheckNames|
    ensures forall i :: 0 <= i < |CheckNames| ==> Labelled(bs)[i] == (CheckNames[i], bs[i])
  {
  }

  predicate AllPass(bs: seq<bool>) { forall i :: 0 <= i < |bs| ==> bs[i] }

  function Grade(bs: seq<bool>): Verdict
    requires |bs| == |CheckNames|
  {
    Verdict(AllPass(bs), FailureMessages(bs, |bs|), Labelled(bs))
  }

  const AllFailed: seq<bool> := [false, false, false, false, false, false, false]

  function ParseFailure(message: string): Verdict
  {
    Verdict(false, [ParseErrorPrefix + message], Labelled(AllFailed))
  }

  /** The response `level2_validate` gives for a parse outcome. */
  function Judge(parsed: Parsed): Response
  {
    match parsed
    case ParseError(m) => Answered(ParseFailure(m))
    case Tree(t) =>
      var doc := Document(t);
      if Raises(doc) then ServerError else Answered(Grade(Outcomes(doc)))
  }

  // ---- the handler, step by step ----

  /**
   * `checks[name] = True` when check `n` passed, `errors.append(message)`
   * when it failed; the first `n` of the outcomes `bs` are already recorded.
   */
  method Record(checks: seq<(string, bool)>, errors: seq<string>, ghost bs: seq<bool>, n: nat, pass: bool)
    returns (checks': seq<(string, bool)>, errors': seq<string>)
    requires |bs| == |CheckNames| && n < |CheckNames| && pass == bs[n]
    requires checks == Labelled(RecordedAfter(bs, n)) && errors == FailureMessages(bs, n)
    ensures checks' == Labelled(RecordedAfter(bs, n + 1)) && errors' == FailureMessages(bs, n + 1)
  {
    checks', errors' := checks, errors;
    if pass {
      checks' := checks'[n := (CheckNames[n], true)];
      assert RecordedAfter(bs, n + 1) == RecordedAfter(bs, n)[n := true];
    } else {
      errors' := errors' + [Messages[n]];
      assert RecordedAfter(bs, n + 1) == RecordedAfter(bs, n);
    }
  }

  /** `ok = all(checks.values())` and the response body. */
  method Respond(checks: seq<(string, bool)>, errors: seq<string>, ghost bs: seq<bool>) returns (v: Verdict)
    requires |bs| == |CheckNames|
    requires checks == Labelled(RecordedAfter(bs, |bs|)) && errors == FailureMessages(bs, |bs|)
    ensures v == Grade(bs)
  {
    assert RecordedAfter(bs, |bs|) == bs;
    LabelledValues(bs);
    var ok := AllValues(checks);
    v := Verdict(ok, errors, checks);
  }

  /** `all(checks.values())` */
  method AllValues(checks: seq<(string, bool)>) returns (ok: bool)
    ensures ok <==> forall i :: 0 <= i < |checks| ==> checks[i].1
  {
    ok := true;
    var i := 0;
    while i < |checks|
      invariant 0 <= i <= |checks|
      invariant ok <==> forall j :: 0 <= j < i ==> checks[j].1
    {
      ok := ok && checks[i].1;
      i := i + 1;
    }
  }

  /**
   * The body of `level2_validate` up to its response: starts from all
   * checks false, sets each check that passes, appends a message for each
   * that fails, and answers HTTP 500 where a `.get` would raise.
   */
  method Evaluate(parsed: Parsed) returns (out: Response)
    ensures out == Judge(parsed)
  {
    if parsed.ParseError? {
      return Answered(Verdict(false, [ParseErrorPrefix + parsed.message], Labelled(AllFailed)));
    }
    out := EvaluateDocument(Document(parsed.tree));
  }

  /** The seven checks over `doc = yaml.safe_load(...) or {}`. */
  method EvaluateDocument(doc: Value) returns (out: Response)
    ensures out == if Raises(doc) then ServerError else Answered(Grade(Outcomes(doc)))
  {
    var apiVersion := ApiVersionOk(doc);
    if !doc.Map? {
      return ServerError;
    }
    var kind := KindOk(doc);
    var name := MetadataNameOk(doc);
    if !Spec(doc).Map? {
      return ServerError;
    }
    var replicas := ReplicasOk(doc);
    if !Template(doc).Map? || !PodSpec(doc).Map? {
      return ServerError;
    }
    var image := ImageOk(doc);
    var probes := ProbesOk(doc);
    var resources := ResourcesOk(doc);
    var verdict := Tally(apiVersion, kind, name, replicas, image, probes, resources);
    out := Answered(verdict);
  }

  /**
   * The recording half of the handler: for each outcome in declaration
   * order, `checks[name] = True` or `errors.append(message)`, then `ok`.
   */
  method Tally(a: bool, b: bool, c: bool, d: bool, e: bool, f: bool, g: bool) returns (v: Verdict)
    ensures v == Grade([a, b, c, d, e, f, g])
  {
    ghost var bs := [a, b, c, d, e, f, g];
    var checks, errors := RecordDocumentChecks(bs, a, b, c, d);
    checks, errors := RecordContainerChecks(bs, checks, errors, e, f, g);
    v := Respond(checks, errors, bs);
  }

  /** Checks 1 to 4, on the document and its `spec`, from the initial all-False dict. */
  method RecordDocumentChecks(ghost bs: seq<bool>, a: bool, b: bool, c: bool, d: bool)
    returns (checks: seq<(string, bool)>, errors: seq<string>)
    requires |bs| == |CheckNames| && a == bs[0] && b == bs[1] && c == bs[2] && d == bs[3]
    ensures checks == Labelled(RecordedAfter(bs, 4)) && errors == FailureMessages(bs, 4)
  {
    assert RecordedAfter(bs, 0) == AllFailed;
    checks, errors := Record(Labelled(AllFailed), [], bs, 0, a);
    checks, errors := Record(checks, errors, bs, 1, b);
    checks, errors := Record(checks, errors, bs, 2, c);
    checks, errors := Record(checks, errors, bs, 3, d);
  }

  /** Checks 5 to 7, on `containers[0]`: image, both probes, requests and limits. */
  method RecordContainerChecks(ghost bs: seq<bool>, checks: seq<(string, bool)>, errors: seq<string>,
                               e: bool, f: bool, g: bool)
    returns (checks': seq<(string, bool)>, errors': seq<string>)
    requires |bs| == |CheckNames| && e == bs[4] && f == bs[5] && g == bs[6]
    requires checks == Labelled(RecordedAfter(bs, 4)) && errors == FailureMessages(bs, 4)
    ensures checks' == Labelled(RecordedAfter(bs, 7)) && errors' == FailureMessages(bs, 7)
  {
    checks', errors' := Record(checks, errors, bs, 4, e);
    checks', errors' := Record(checks', errors', bs, 5, f);
    checks', errors' := Record(checks', errors', bs, 6, g);
  }

  // ---- what the rubric promises ----

  /** The seven messages are pairwise different, so each names one check. */
  lemma MessagesDistinct()
    ensures Distinct(Messages)
  {
    assert Messages[0][0] == 'a' && Messages[1][0] == 'k' && Messages[2][0] == 'm';
    assert Messages[3][0] == 's' && Messages[4][0] == 'c';
    assert |Messages[5]| != |Messages[6]|;
  }

  /** The number of failed checks among the first `n` outcomes. */
  function FailedCount(bs: seq<bool>, n: nat): nat
    requires n <= |bs|
  {
    if n == 0 then 0 else FailedCount(bs, n - 1) + (if bs[n - 1] then 0 else 1)
  }

  /** After recording `n` outcomes, message `k` is reported exactly when check `k` is among them and failed. */
  lemma {:induction false} FailureMessagesListed(bs: seq<bool>, n: nat)
    requires |bs| == |CheckNames| && n <= |CheckNames|
    ensures forall k :: 0 <= k < |CheckNames| ==>
      (Messages[k] in FailureMessages(bs, n) <==> k < n && !bs[k])
  {
    MessagesDistinct();
    if n > 0 {
      FailureMessagesListed(bs, n - 1);
    }
  }

  /** One message per failed check, and none when every recorded check passed. */
  lemma {:induction false} FailureMessagesCount(bs: seq<bool>, n: nat)
    requires |bs| == |CheckNames| && n <= |CheckNames|
    ensures |FailureMessages(bs, n)| == FailedCount(bs, n)
    ensures (forall k :: 0 <= k < n ==> bs[k]) ==> FailureMessages(bs, n) == []
  {
    if n > 0 {
      FailureMessagesCount(bs, n - 1);
    }
  }

  /** The messages come in declaration order, so none is repeated. */
  lemma {:induction false} FailureMessagesOrdered(bs: seq<bool>, n: nat)
    requires |bs| == |CheckNames| && n <= |CheckNames|
    ensures forall i, j, k1, k2 ::
      (0 <= i < j < |FailureMessages(bs, n)| && 0 <= k1 < |Messages| && 0 <= k2 < |Messages|
       && FailureMessages(bs, n)[i] == Messages[k1] && FailureMessages(bs, n)[j] == Messages[k2]) ==> k1 < k2
    ensures Distinct(FailureMessages(bs, n))
  {
    if n > 0 {
      FailureMessagesOrdered(bs, n - 1);
      FailureMessagesListed(bs, n - 1);
      MessagesDistinct();
      var prev := FailureMessages(bs, n - 1);
      var errs := FailureMessages(bs, n);
      if !bs[n - 1] {
        assert errs == prev + [Messages[n - 1]];
        assert Messages[n - 1] !in prev;
        forall i, j, k1, k2 | 0 <= i < j < |errs| && 0 <= k1 < |Messages| && 0 <= k2 < |Messages|
          && errs[i] == Messages[k1] && errs[j] == Messages[k2]
          ensures k1 < k2
        {
          if j < |prev| {
            assert prev[i] == Messages[k1] && prev[j] == Messages[k2];
          } else {
            assert prev[i] == Messages[k1];
            assert Messages[k1] in prev;
          }
        }
      }
    }
  }

  /** `ok` holds exactly when no message is reported, and exactly when every check in the dict is True. */
  lemma GradeOk(bs: seq<bool>)
    requires |bs| == |CheckNames|
    ensures Grade(bs).ok <==> Grade(bs).errors == []
    ensures Grade(bs).ok <==> forall i :: 0 <= i < |Grade(bs).checks| ==> Grade(bs).checks[i].1
  {
    FailureMessagesListed(bs, |bs|);
    FailureMessagesCount(bs, |bs|);
    LabelledValues(bs);
    if !Grade(bs).ok {
      var k :| 0 <= k < |bs| && !bs[k];
      assert Messages[k] in Grade(bs).errors;
    }
  }

  /** A parse failure reports one message carrying the parser's text and leaves every check False. */
  lemma ParseErrorVerdict(message: string)
    ensures Judge(ParseError(message)).Answered?
    ensures var v := Judge(ParseError(message)).verdict;
      !v.ok && v.errors == [ParseErrorPrefix + message]
      && |v.checks| == |CheckNames|
      && forall i :: 0 <= i < |CheckNames| ==> v.checks[i] == (CheckNames[i], false)
  {
    LabelledValues(AllFailed);
  }

  /**
   * An empty or falsy document (`None`, `0`, `""`, `[]`, `false`) becomes
   * `{}`: nothing raises and every check fails, with all seven messages.
   */
  lemma FalsyDocumentFailsEveryCheck(t: Value)
    requires !Truthy(t)
    ensures Judge(Tree(t)) == Answered(Verdict(false, Messages, Labelled(AllFailed)))
  {
    var doc := Document(t);
    assert doc == Empty;
    assert Outcomes(doc) == AllFailed;
    assert FailureMessages(AllFailed, 1) == Messages[..1];
    assert FailureMessages(AllFailed, 2) == Messages[..2];
    assert FailureMessages(AllFailed, 3) == Messages[..3];
    assert FailureMessages(AllFailed, 4) == Messages[..4];
    assert FailureMessages(AllFailed, 5) == Messages[..5];
    assert FailureMessages(AllFailed, 6) == Messages[..6];
    assert FailureMessages(AllFailed, 7) == Messages[..7] == Messages;
  }

  /** A document that is a non-empty list or a non-empty scalar makes `doc.get("kind")` raise. */
  lemma NonMappingDocumentRaises(t: Value)
    requires Truthy(t) && !t.Map?
    ensures Judge(Tree(t)) == ServerError
  {
  }

  /** `tpl.get("metadata") and tpl.get("spec") or tpl.get("spec")` is `tpl.get("spec")` whatever the metadata is. */
  lemma PodSpecIgnoresTemplateMetadata(doc: Value)
    ensures PodSpec(doc) == Or(Field(Template(doc), "spec"), Empty)
  {
    var tpl := Template(doc);
    AndThenOrCollapses(Field(tpl, "metadata"), Field(tpl, "spec"));
  }

  /** The replicas check, stated by direct lookups: `spec.replicas` is present and an integer of at least 2. */
  lemma ReplicasRule(doc: Value)
    ensures ReplicasOk(doc) <==>
      doc.Map? && "spec" in doc.fields && doc.fields["spec"].Map?
      && "replicas" in doc.fields["spec"].fields
      && doc.fields["spec"].fields["replicas"].Int? && doc.fields["spec"].fields["replicas"].i >= 2
  {
  }

  /**
   * Without a non-empty list of containers (missing, empty, or a mapping
   * instead of a list), `c0` is `{}` and the three container checks fail.
   */
  lemma MissingContainersFailContainerChecks(doc: Value)
    requires !Containers(doc).List? || Containers(doc).items == []
    ensures !ImageOk(doc) && !ProbesOk(doc) && !ResourcesOk(doc)
  {
  }

  /** The resources check, stated by direct lookups on the first container. */
  lemma ResourcesRule(c0: Value)
    ensures HasResources(c0) <==>
      c0.Map? && "resources" in c0.fields
      && (var res := c0.fields["resources"];
          res.Map? && "requests" in res.fields && "limits" in res.fields
          && res.fields["requests"].Map? && res.fields["limits"].Map?
          && (forall part | part in ["requests", "limits"] ::
                forall unit | unit in ["cpu", "memory"] ::
                  unit in res.fields[part].fields && Truthy(res.fields[part].fields[unit])))
  {
  }
}


/** The behaviour of the five API operations as their unit tests fix it:
    which gate answers first, the exact messages and signing strings, and
    which collaborator calls a request makes. Every lemma holds for every
    choice of the orders the tests leave open (OpenChoices). */
module RouteProperties {
  import opened ApiTypes
  import opened Signing
  import opened Gates
  import opened Routes

  /** `pub` and `sig` are present and the validator accepts `sig` for the
      operation's canonical string under SHA1. */
  predicate ValidSignature(op: Operation, p: Params, validate: Validator) {
    Param(p, "pub").Some? && Param(p, "sig").Some? &&
    validate(Param(p, "pub").value, Param(p, "sig").value,
             Canonical(Param(p, "pub").value, p, OperationFields(op)), SHA1)
  }

  /** A request passes the signature gate exactly when it is signed validly. */
  lemma {:induction false} AuthCheckPasses(op: Operation, p: Params, validate: Validator)
    ensures AuthCheck(p, OperationFields(op), validate).None? <==> ValidSignature(op, p, validate)
  {
  }

  /** The pipeline lets a request through exactly when every required field is
      present and, when the operation is signed, the signature is valid. */
  lemma PipelinePasses(op: Operation, apiAuth: bool, choices: OpenChoices, p: Params, validate: Validator)
    ensures RunGates(p, Pipeline(op, apiAuth, choices), validate).None? <==>
            FieldsPresent(p, OperationFields(op)) && (apiAuth && Signed(op) ==> ValidSignature(op, p, validate))
  {
    var fields, auth := FieldGates(OperationFields(op)), AuthGates(op, apiAuth);
    FieldGatesReportFirstAbsent(p, OperationFields(op), validate);
    AuthCheckPasses(op, p, validate);
    assert RunGates(p, auth, validate).None? <==> (apiAuth && Signed(op) ==> ValidSignature(op, p, validate)) by {
      if apiAuth && Signed(op) {
        assert CheckGate(p, auth[0], validate) == AuthCheck(p, OperationFields(op), validate);
      }
    }
    RunGatesAppend(p, fields, auth, validate);
    RunGatesAppend(p, auth, fields, validate);
  }

  /** Every successful response comes from an enabled API, a request with all
      its required fields and, under authentication, a valid signature. */
  lemma SuccessPassedEveryGate(op: Operation, cfg: Config, choices: OpenChoices, req: Option<Params>, s: Services)
    requires cfg.apiEnabled ==> req.Some?
    requires Handle(op, cfg, choices, req, s).response.successful
    ensures cfg.apiEnabled && FieldsPresent(req.value, OperationFields(op))
    ensures cfg.apiAuth && Signed(op) ==> ValidSignature(op, req.value, s.validate)
  {
    PipelinePasses(op, cfg.apiAuth, choices, req.value, s.validate);
  }

  /** With every gate passed, the answer is the operation's business action. */
  lemma AdmittedRequestActs(op: Operation, cfg: Config, choices: OpenChoices, p: Params, s: Services)
    requires cfg.apiEnabled && FieldsPresent(p, OperationFields(op))
    requires cfg.apiAuth && Signed(op) ==> ValidSignature(op, p, s.validate)
    ensures Handle(op, cfg, choices, Some(p), s) == Act(op, choices, p, s)
  {
    PipelinePasses(op, cfg.apiAuth, choices, p, s.validate);
  }

  /** The answer of a pipeline whose signature gate fails, when nothing before
      it has failed: the signature gate's own message. */
  lemma AuthFailureAnswers(op: Operation, cfg: Config, choices: OpenChoices, p: Params, s: Services)
    requires cfg.apiEnabled && cfg.apiAuth && Signed(op)
    requires AuthCheck(p, OperationFields(op), s.validate).Some?
    requires FieldsFirst(op, choices) ==> FieldsPresent(p, OperationFields(op))
    ensures Handle(op, cfg, choices, Some(p), s) == Refuse(AuthCheck(p, OperationFields(op), s.validate).value)
  {
    var fields, auth := FieldGates(OperationFields(op)), AuthGates(op, cfg.apiAuth);
    assert CheckGate(p, auth[0], s.validate) == AuthCheck(p, OperationFields(op), s.validate);
    if FieldsFirst(op, choices) {
      FieldGatesReportFirstAbsent(p, OperationFields(op), s.validate);
      RunGatesAppend(p, fields, auth, s.validate);
    } else {
      RunGatesAppend(p, auth, fields, s.validate);
    }
  }

  /** With authentication on, a request without `pub` is refused with
      "pub is a required parameter", before `sig` or the signature is looked at. */
  lemma MissingPubRefused(op: Operation, cfg: Config, choices: OpenChoices, p: Params, s: Services)
    requires cfg.apiEnabled && cfg.apiAuth && Signed(op)
    requires Param(p, "pub").None?
    requires FieldsFirst(op, choices) ==> FieldsPresent(p, OperationFields(op))
    ensures Handle(op, cfg, choices, Some(p), s) == Refuse(PubRequired)
  {
    AuthFailureAnswers(op, cfg, choices, p, s);
  }

  /** With `pub` present and `sig` absent the answer is "sig is a required parameter". */
  lemma MissingSigRefused(op: Operation, cfg: Config, choices: OpenChoices, p: Params, s: Services)
    requires cfg.apiEnabled && cfg.apiAuth && Signed(op)
    requires Param(p, "pub").Some? && Param(p, "sig").None?
    requires FieldsFirst(op, choices) ==> FieldsPresent(p, OperationFields(op))
    ensures Handle(op, cfg, choices, Some(p), s) == Refuse(SigRequired)
  {
    AuthFailureAnswers(op, cfg, choices, p, s);
  }

  /** A signature the validator rejects gives "invalid signed url". */
  lemma BadSignatureRefused(op: Operation, cfg: Config, choices: OpenChoices, p: Params, s: Services)
    requires cfg.apiEnabled && cfg.apiAuth && Signed(op)
    requires Param(p, "pub").Some? && Param(p, "sig").Some? && !ValidSignature(op, p, s.validate)
    requires FieldsFirst(op, choices) ==> FieldsPresent(p, OperationFields(op))
    ensures Handle(op, cfg, choices, Some(p), s) == Refuse(InvalidSignedUrl)
  {
    AuthFailureAnswers(op, cfg, choices, p, s);
  }

  /** When the fields are checked before the signature (always, when
      authentication is off), or the signature is valid, the first absent
      field in declaration order is reported as "<field> is a required
      parameter". */
  lemma FirstAbsentFieldReported(op: Operation, cfg: Config, choices: OpenChoices, p: Params, s: Services, k: nat)
    requires cfg.apiEnabled && (!cfg.apiAuth || FieldsFirst(op, choices) || ValidSignature(op, p, s.validate))
    requires k < |OperationFields(op)|
    requires FieldsPresent(p, OperationFields(op)[..k]) && Param(p, OperationFields(op)[k]).None?
    ensures Handle(op, cfg, choices, Some(p), s) == Refuse(OperationFields(op)[k] + " is a required parameter")
  {
    var names, v := OperationFields(op), s.validate;
    var fields, auth := FieldGates(names), AuthGates(op, cfg.apiAuth);
    FieldGatesReportFirstAbsent(p, names, v);
    if FieldsFirst(op, choices) {
      RunGatesAppend(p, fields, auth, v);
    } else if !cfg.apiAuth {
      assert auth == [];
      assert auth + fields == fields;
    } else {
      AuthCheckPasses(op, p, v);
      assert CheckGate(p, auth[0], v) == AuthCheck(p, names, v);
      RunGatesAppend(p, auth, fields, v);
    }
  }

  /** When authentication is off, or every field is present, the fields and
      the signature may be checked in either order: the same gate decides. */
  lemma GateOrderIrrelevant(op: Operation, apiAuth: bool, c1: OpenChoices, c2: OpenChoices, p: Params, v: Validator)
    requires !apiAuth || FieldsPresent(p, OperationFields(op))
    ensures RunGates(p, Pipeline(op, apiAuth, c1), v) == RunGates(p, Pipeline(op, apiAuth, c2), v)
  {
    var fields, auth := FieldGates(OperationFields(op)), AuthGates(op, apiAuth);
    FieldGatesReportFirstAbsent(p, OperationFields(op), v);
    RunGatesAppend(p, fields, auth, v);
    RunGatesAppend(p, auth, fields, v);
    if !apiAuth {
      assert fields + auth == fields && auth + fields == fields;
    }
  }

  /** The orders the tests leave open only matter for a request that is both
      missing a field and subject to the signature gate. */
  lemma OpenOrderOnlyMattersWhenBothFail(op: Operation, cfg: Config, c1: OpenChoices, c2: OpenChoices, p: Params, s: Services)
    requires c1.deleteNotFoundMessage == c2.deleteNotFoundMessage
    requires cfg.apiEnabled && (!cfg.apiAuth || FieldsPresent(p, OperationFields(op)))
    ensures Handle(op, cfg, c1, Some(p), s) == Handle(op, cfg, c2, Some(p), s)
  {
    GateOrderIrrelevant(op, cfg.apiAuth, c1, c2, p, s.validate);
    if RunGates(p, Pipeline(op, cfg.apiAuth, c1), s.validate).None? {
      PassedPipelineHasFields(op, cfg.apiAuth, c1, p, s.validate);
      assert Act(op, c1, p, s) == Act(op, c2, p, s);
    }
  }

  /** Reindex: "reindex forced" after one rebuildAll() and one forceEnqueue();
      when rebuildAll() fails, "was unable to force the index" and no forceEnqueue(). */
  lemma ReindexOutcome(cfg: Config, choices: OpenChoices, p: Params, s: Services)
    requires cfg.apiEnabled && (cfg.apiAuth ==> ValidSignature(Reindex, p, s.validate))
    ensures var out := Handle(Reindex, cfg, choices, Some(p), s);
            if s.rebuildAll then out == Outcome(Success("reindex forced"), Effects(1, 1, [], [], []))
            else out == Outcome(Failure("was unable to force the index"), Effects(1, 0, [], [], []))
  {
    AdmittedRequestActs(Reindex, cfg, choices, p, s);
  }

  /** Index one repository: the repoUrl parameter (null when absent) is looked
      up and echoed; the signature settings play no part. */
  lemma IndexOneOutcome(cfg: Config, choices: OpenChoices, p: Params, s: Services)
    requires cfg.apiEnabled
    ensures var url := Param(p, "repoUrl");
            var out := Handle(IndexOne, cfg, choices, Some(p), s);
            match s.repoByUrl(url)
            case None => out == Refuse("Was unable to find repository " + Render(url))
            case Some(repo) => out == Outcome(Success("Enqueued repository " + Render(url)), Effects(0, 0, [repo], [], []))
  {
    AdmittedRequestActs(IndexOne, cfg, choices, p, s);
  }

  /** List: an empty message and every known repository. */
  lemma ListOutcome(cfg: Config, choices: OpenChoices, p: Params, s: Services)
    requires cfg.apiEnabled && (cfg.apiAuth ==> ValidSignature(ListRepos, p, s.validate))
    ensures Handle(ListRepos, cfg, choices, Some(p), s) == Outcome(Response("", true, Some(s.allRepos)), NoEffects)
  {
    AdmittedRequestActs(ListRepos, cfg, choices, p, s);
  }

  /** Delete: the repository named by reponame is put on the deletion queue,
      and only that. */
  lemma DeleteOutcome(cfg: Config, choices: OpenChoices, p: Params, s: Services)
    requires cfg.apiEnabled && Param(p, "reponame").Some?
    requires cfg.apiAuth ==> ValidSignature(DeleteRepo, p, s.validate)
    ensures var out := Handle(DeleteRepo, cfg, choices, Some(p), s);
            match s.repoByName(Param(p, "reponame").value)
            case None => out == Refuse(choices.deleteNotFoundMessage)
            case Some(repo) => out == Outcome(Success("repository queued for deletion"), Effects(0, 0, [], [repo], []))
  {
    AdmittedRequestActs(DeleteRepo, cfg, choices, p, s);
  }

  /** Add: exactly one record is saved, holding the supplied fields. */
  lemma AddOutcome(cfg: Config, choices: OpenChoices, p: Params, s: Services)
    requires cfg.apiEnabled && FieldsPresent(p, AddFields)
    requires cfg.apiAuth ==> ValidSignature(AddRepo, p, s.validate)
    ensures var out := Handle(AddRepo, cfg, choices, Some(p), s);
            out.response == Success("added repository successfully") &&
            out.effects == Effects(0, 0, [], [], [NewRecord(p)])
    ensures var r := NewRecord(p);
            Some(r.name) == Param(p, "reponame") && Some(r.url) == Param(p, "repourl") &&
            Some(r.scm) == Param(p, "repotype") && Some(r.username) == Param(p, "repousername") &&
            Some(r.password) == Param(p, "repopassword") && Some(r.source) == Param(p, "reposource") &&
            Some(r.branch) == Param(p, "repobranch")
  {
    AdmittedRequestActs(AddRepo, cfg, choices, p, s);
  }

  /** The strings reindex, list and delete hand to the validator: `pub=<pub>`,
      followed for delete by `&reponame=<reponame>`. */
  lemma CanonicalStrings(pub: string, p: Params)
    ensures Canonical(pub, p, OperationFields(Reindex)) == "pub=" + pub
    ensures Canonical(pub, p, OperationFields(ListRepos)) == "pub=" + pub
    ensures Canonical(pub, p, OperationFields(DeleteRepo)) ==
            "pub=" + pub + "&" + "reponame" + "=" + Render(Param(p, "reponame"))
  {
    assert Canonical(pub, p, []) == "pub=" + pub;
    CanonicalSnoc(pub, p, [], "reponame");
    assert [] + ["reponame"] == DeleteFields;
  }

  /** The add fields, one at a time. */
  lemma AddFieldsGrow()
    ensures [] + ["reponame"] == AddFields[..1]
    ensures AddFields[..1] + ["repourl"] == AddFields[..2]
    ensures AddFields[..2] + ["repotype"] == AddFields[..3]
    ensures AddFields[..3] + ["repousername"] == AddFields[..4]
    ensures AddFields[..4] + ["repopassword"] == AddFields[..5]
    ensures AddFields[..5] + ["reposource"] == AddFields[..6]
    ensures AddFields[..6] + ["repobranch"] == AddFields
  {
  }

  /** The string add hands to the validator: `pub` and then the seven fields
      in validation order (the pieces of each `&name=` are written apart). */
  lemma AddCanonicalString(pub: string, p: Params)
    ensures Canonical(pub, p, OperationFields(AddRepo)) ==
            "pub=" + pub + "&" + "reponame" + "=" + Render(Param(p, "reponame"))
                         + "&" + "repourl" + "=" + Render(Param(p, "repourl"))
                         + "&" + "repotype" + "=" + Render(Param(p, "repotype"))
                         + "&" + "repousername" + "=" + Render(Param(p, "repousername"))
                         + "&" + "repopassword" + "=" + Render(Param(p, "repopassword"))
                         + "&" + "reposource" + "=" + Render(Param(p, "reposource"))
                         + "&" + "repobranch" + "=" + Render(Param(p, "repobranch"))
  {
    AddFieldsGrow();
    assert Canonical(pub, p, []) == "pub=" + pub;
    CanonicalSnoc(pub, p, [], "reponame");
    CanonicalSnoc(pub, p, AddFields[..1], "repourl");
    CanonicalSnoc(pub, p, AddFields[..2], "repotype");
    CanonicalSnoc(pub, p, AddFields[..3], "repousername");
    CanonicalSnoc(pub, p, AddFields[..4], "repopassword");
    CanonicalSnoc(pub, p, AddFields[..5], "reposource");
    CanonicalSnoc(pub, p, AddFields[..6], "repobranch");
  }

  /** The canonical string of the first two add fields. */
  lemma FirstTwoFieldsCanonical(pub: string, p: Params)
    ensures Canonical(pub, p, AddFields[..2]) ==
            "pub=" + pub + "&" + "reponame" + "=" + Render(Param(p, "reponame"))
                         + "&" + "repourl" + "=" + Render(Param(p, "repourl"))
  {
    AddFieldsGrow();
    assert Canonical(pub, p, []) == "pub=" + pub;
    CanonicalSnoc(pub, p, [], "reponame");
    CanonicalSnoc(pub, p, AddFields[..1], "repourl");
  }

  /** The first two add fields: reponame "x&repourl=y" with repourl "z" is
      signed exactly as reponame "x" with repourl "y&repourl=z". */
  lemma FirstTwoFieldsCollide(pub: string, p1: Params, p2: Params)
    requires Param(p1, "reponame") == Some("x&repourl=y") && Param(p1, "repourl") == Some("z")
    requires Param(p2, "reponame") == Some("x") && Param(p2, "repourl") == Some("y&repourl=z")
    ensures Canonical(pub, p1, AddFields[..2]) == Canonical(pub, p2, AddFields[..2])
  {
    FirstTwoFieldsCanonical(pub, p1);
    FirstTwoFieldsCanonical(pub, p2);
    var head := "pub=" + pub + "&" + "reponame" + "=";
    Regroup(head, "x&repourl=y", "&", "repourl", "=", "z");
    Regroup(head, "x", "&", "repourl", "=", "y&repourl=z");
    SameTail();
  }

  lemma Regroup(h: string, a: string, b: string, c: string, d: string, e: string)
    ensures h + a + b + c + d + e == h + (a + b + c + d + e)
  {
  }

  lemma SameTail()
    ensures "x&repourl=y" + "&" + "repourl" + "=" + "z" == "x" + "&" + "repourl" + "=" + "y&repourl=z"
  {
  }

  /** Signing one more field whose value is `test`. */
  lemma SnocTestValue(pub: string, p: Params, names: seq<string>, name: string)
    requires Param(p, name) == Some("test")
    ensures Canonical(pub, p, names + [name]) == Canonical(pub, p, names) + ("&" + name + "=test")
  {
    CanonicalSnoc(pub, p, names, name);
  }

  /** The string an add request signed with `pub` test and every field `test`
      is checked against, written as its eight `name=test` pieces. */
  lemma AddCanonicalOfTestRequest(p: Params)
    requires forall i :: 0 <= i < |AddFields| ==> Param(p, AddFields[i]) == Some("test")
    ensures Canonical("test", p, AddFields) ==
            "pub=test" + "&reponame=test" + "&repourl=test" + "&repotype=test" + "&repousername=test"
                       + "&repopassword=test" + "&reposource=test" + "&repobranch=test"
  {
    AddFieldsGrow();
    assert Canonical("test", p, []) == "pub=test";
    SnocTestValue("test", p, [], AddFields[0]);
    SnocTestValue("test", p, AddFields[..1], AddFields[1]);
    SnocTestValue("test", p, AddFields[..2], AddFields[2]);
    SnocTestValue("test", p, AddFields[..3], AddFields[3]);
    SnocTestValue("test", p, AddFields[..4], AddFields[4]);
    SnocTestValue("test", p, AddFields[..5], AddFields[5]);
    SnocTestValue("test", p, AddFields[..6], AddFields[6]);
    TestPieces();
    MoreTestPieces();
  }

  /** Each `&name=test` piece of the add request's test string. */
  lemma TestPieces()
    ensures "&" + "reponame" + "=test" == "&reponame=test"
    ensures "&" + "repourl" + "=test" == "&repourl=test"
    ensures "&" + "repotype" + "=test" == "&repotype=test"
    ensures "&" + "repousername" + "=test" == "&repousername=test"
  {
  }

  lemma MoreTestPieces()
    ensures "&" + "repopassword" + "=test" == "&repopassword=test"
    ensures "&" + "reposource" + "=test" == "&reposource=test"
    ensures "&" + "repobranch" + "=test" == "&repobranch=test"
  {
  }

  /** Plain concatenation does not bind a value that contains `&`: these two
      add requests differ in reponame and repourl, so they would save
      different records, yet both are checked against the same string
      `pub=<pub>&reponame=x&repourl=y&repourl=z&...`, so one signature
      admits both. */
  lemma AmpersandValuesCollide(pub: string)
    ensures var p1 := map["reponame" := Some("x&repourl=y"), "repourl" := Some("z"), "repotype" := Some("test"),
                          "repousername" := Some("test"), "repopassword" := Some("test"),
                          "reposource" := Some("test"), "repobranch" := Some("test")];
            var p2 := map["reponame" := Some("x"), "repourl" := Some("y&repourl=z"), "repotype" := Some("test"),
                          "repousername" := Some("test"), "repopassword" := Some("test"),
                          "reposource" := Some("test"), "repobranch" := Some("test")];
            FieldsPresent(p1, AddFields) && FieldsPresent(p2, AddFields) && NewRecord(p1) != NewRecord(p2) &&
            Canonical(pub, p1, AddFields) == Canonical(pub, p2, AddFields)
  {
    var p1 := map["reponame" := Some("x&repourl=y"), "repourl" := Some("z"), "repotype" := Some("test"),
                  "repousername" := Some("test"), "repopassword" := Some("test"),
                  "reposource" := Some("test"), "repobranch" := Some("test")];
    var p2 := map["reponame" := Some("x"), "repourl" := Some("y&repourl=z"), "repotype" := Some("test"),
                  "repousername" := Some("test"), "repopassword" := Some("test"),
                  "reposource" := Some("test"), "repobranch" := Some("test")];
    AddFieldsGrow();
    FirstTwoFieldsCollide(pub, p1, p2);
    CanonicalAgreeSnoc(pub, p1, p2, AddFields[..2], "repotype");
    CanonicalAgreeSnoc(pub, p1, p2, AddFields[..3], "repousername");
    CanonicalAgreeSnoc(pub, p1, p2, AddFields[..4], "repopassword");
    CanonicalAgreeSnoc(pub, p1, p2, AddFields[..5], "reposource");
    CanonicalAgreeSnoc(pub, p1, p2, AddFields[..6], "repobranch");
  }
}

/** The short-circuit checks that guard every API operation: a required
    parameter must be present, and a signed request must carry `pub` and
    `sig` and a signature the validator accepts. A pipeline is a sequence of
    gates run in order; the first one that fails decides the response. */
module Gates {
  import opened ApiTypes
  import opened Signing

  const PubRequired := "pub is a required parameter"
  const SigRequired := "sig is a required parameter"
  const InvalidSignedUrl := "invalid signed url"

  /** "<name> is a required parameter", the answer to an absent field. */
  function RequiredMessage(name: string): string {
    name + " is a required parameter"
  }

  datatype Gate =
    | Require(name: string)            // the parameter must be present
    | Authenticate(signed: seq<string>) // pub, then sig, then the signature over pub and `signed`

  /** The signature check: `pub` before `sig` before the validator, which is
      asked about the canonical string of `pub` and the signed parameters. */
  function AuthCheck(p: Params, signed: seq<string>, validate: Validator): Option<string> {
    match (Param(p, "pub"), Param(p, "sig"))
    case (None, _) => Some(PubRequired)
    case (Some(_), None) => Some(SigRequired)
    case (Some(pub), Some(sig)) =>
      if validate(pub, sig, Canonical(pub, p, signed), SHA1) then None else Some(InvalidSignedUrl)
  }

  /** The message of a failing gate, None when the gate passes. */
  function CheckGate(p: Params, g: Gate, validate: Validator): Option<string> {
    match g
    case Require(name) => if Param(p, name).None? then Some(RequiredMessage(name)) else None
    case Authenticate(signed) => AuthCheck(p, signed, validate)
  }

  /** Runs `gates` in order and stops at the first failure. */
  function RunGates(p: Params, gates: seq<Gate>, validate: Validator): (r: Option<string>)
    ensures r.None? <==> forall i :: 0 <= i < |gates| ==> CheckGate(p, gates[i], validate).None?
    ensures r.Some? ==> exists i :: 0 <= i < |gates| && CheckGate(p, gates[i], validate) == r &&
                          forall j :: 0 <= j < i ==> CheckGate(p, gates[j], validate).None?
  {
    if gates == [] then None
    else match CheckGate(p, gates[0], validate)
      case Some(m) => Some(m)
      case None =>
        var r := RunGates(p, gates[1..], validate);
        assert forall i :: 1 <= i < |gates| ==> gates[i] == gates[1..][i - 1];
        r
  }

  /** First failing gate wins: whatever fails later is never reported. */
  lemma {:induction false} FirstFailureWins(p: Params, gates: seq<Gate>, validate: Validator, k: nat)
    requires k < |gates|
    requires forall j :: 0 <= j < k ==> CheckGate(p, gates[j], validate).None?
    requires CheckGate(p, gates[k], validate).Some?
    ensures RunGates(p, gates, validate) == CheckGate(p, gates[k], validate)
  {
    if k > 0 {
      assert CheckGate(p, gates[0], validate).None?;
      forall j | 0 <= j < k - 1 ensures CheckGate(p, gates[1..][j], validate).None? {
        assert gates[1..][j] == gates[j + 1];
      }
      FirstFailureWins(p, gates[1..], validate, k - 1);
    }
  }

  /** Running two pipelines back to back is running the first and, if it
      passes, the second. */
  lemma {:induction false} RunGatesAppend(p: Params, a: seq<Gate>, b: seq<Gate>, validate: Validator)
    ensures RunGates(p, a + b, validate) ==
            (if RunGates(p, a, validate).Some? then RunGates(p, a, validate) else RunGates(p, b, validate))
  {
    if a != [] {
      assert (a + b)[0] == a[0];
      assert (a + b)[1..] == a[1..] + b;
      RunGatesAppend(p, a[1..], b, validate);
    } else {
      assert a + b == b;
    }
  }

  /** One Require gate per name, in the order given. */
  function FieldGates(names: seq<string>): seq<Gate> {
    seq(|names|, i requires 0 <= i < |names| => Require(names[i]))
  }

  predicate FieldsPresent(p: Params, names: seq<string>) {
    forall i :: 0 <= i < |names| ==> Param(p, names[i]).Some?
  }

  /** The field checks report the first absent field in declaration order. */
  lemma FieldGatesReportFirstAbsent(p: Params, names: seq<string>, validate: Validator)
    ensures RunGates(p, FieldGates(names), validate).None? <==> FieldsPresent(p, names)
    ensures forall k :: 0 <= k < |names| && FieldsPresent(p, names[..k]) && Param(p, names[k]).None? ==>
              RunGates(p, FieldGates(names), validate) == Some(RequiredMessage(names[k]))
  {
    var gs := FieldGates(names);
    assert |gs| == |names| && forall i :: 0 <= i < |names| ==> gs[i] == Require(names[i]);
    forall k | 0 <= k < |names| && FieldsPresent(p, names[..k]) && Param(p, names[k]).None?
      ensures RunGates(p, gs, validate) == Some(RequiredMessage(names[k]))
    {
      forall j | 0 <= j < k ensures CheckGate(p, gs[j], validate).None? {
        assert names[..k][j] == names[j];
      }
      FirstFailureWins(p, gs, validate, k);
    }
  }
}

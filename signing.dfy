/** The canonical query string that a signed request's `sig` is checked
    against: `pub=<pub>` followed by `&<name>=<value>` for each signed
    parameter in a fixed order, absent values written as Java writes null. */
module Signing {
  import opened ApiTypes

  /** The (name, value) pairs that are signed: `pub` first, then `names` in order. */
  function SignedPairs(pub: string, p: Params, names: seq<string>): seq<(string, string)> {
    [("pub", pub)] + seq(|names|, i requires 0 <= i < |names| => (names[i], Render(Param(p, names[i]))))
  }

  /** `k1=v1&k2=v2&...` */
  function JoinPairs(ps: seq<(string, string)>): string
    requires |ps| > 0
  {
    ps[0].0 + "=" + ps[0].1 + (if |ps| == 1 then "" else "&" + JoinPairs(ps[1..]))
  }

  /** The string the route service hands to the validator. */
  function Canonical(pub: string, p: Params, names: seq<string>): string {
    JoinPairs(SignedPairs(pub, p, names))
  }

  lemma {:induction false} JoinSnoc(ps: seq<(string, string)>, q: (string, string))
    requires |ps| > 0
    ensures JoinPairs(ps + [q]) == JoinPairs(ps) + "&" + q.0 + "=" + q.1
  {
    if |ps| == 1 {
      assert (ps + [q])[1..] == [q];
    } else {
      assert (ps + [q])[1..] == ps[1..] + [q];
      JoinSnoc(ps[1..], q);
    }
  }

  /** Signing one more parameter appends `&name=value` to the canonical string. */
  lemma CanonicalSnoc(pub: string, p: Params, names: seq<string>, name: string)
    ensures Canonical(pub, p, names + [name]) == Canonical(pub, p, names) + "&" + name + "=" + Render(Param(p, name))
  {
    var ps := SignedPairs(pub, p, names);
    assert SignedPairs(pub, p, names + [name]) == ps + [(name, Render(Param(p, name)))];
    JoinSnoc(ps, (name, Render(Param(p, name))));
  }

  /** Two requests that are signed alike so far, and agree on one more
      field, are signed alike with that field as well. */
  lemma CanonicalAgreeSnoc(pub: string, p1: Params, p2: Params, names: seq<string>, name: string)
    requires Canonical(pub, p1, names) == Canonical(pub, p2, names)
    requires Param(p1, name) == Param(p2, name)
    ensures Canonical(pub, p1, names + [name]) == Canonical(pub, p2, names + [name])
  {
    CanonicalSnoc(pub, p1, names, name);
    CanonicalSnoc(pub, p2, names, name);
  }

  // ---------------------------------------------------------------------------
  // Reading a query string back, the partner of JoinPairs.

  /** Splits `s` at every occurrence of `c`. */
  function SplitOn(s: string, c: char): (parts: seq<string>)
    ensures |parts| > 0
  {
    if |s| == 0 then [""]
    else
      var rest := SplitOn(s[1..], c);
      if s[0] == c then [""] + rest else [[s[0]] + rest[0]] + rest[1..]
  }

  /** Splits one `key=value` segment at its first `=`. */
  function KeyValue(seg: string): (string, string) {
    if |seg| == 0 then ("", "")
    else if seg[0] == '=' then ("", seg[1..])
    else
      var kv := KeyValue(seg[1..]);
      ([seg[0]] + kv.0, kv.1)
  }

  function ParseQuery(s: string): seq<(string, string)> {
    var parts := SplitOn(s, '&');
    seq(|parts|, i requires 0 <= i < |parts| => KeyValue(parts[i]))
  }

  /** No name contains `=` or `&`, and no value contains `&`. */
  predicate Separable(ps: seq<(string, string)>) {
    forall i :: 0 <= i < |ps| ==> '=' !in ps[i].0 && '&' !in ps[i].0 && '&' !in ps[i].1
  }

  lemma {:induction false} SplitPrefix(a: string, t: string, c: char)
    requires c !in a
    ensures SplitOn(a + t, c) == [a + SplitOn(t, c)[0]] + SplitOn(t, c)[1..]
  {
    if |a| > 0 {
      assert (a + t)[1..] == a[1..] + t;
      SplitPrefix(a[1..], t, c);
      assert [a[0]] + (a[1..] + SplitOn(t, c)[0]) == a + SplitOn(t, c)[0];
    } else {
      assert a + t == t;
      var parts := SplitOn(t, c);
      assert a + parts[0] == parts[0];
      assert [parts[0]] + parts[1..] == parts;
    }
  }

  lemma {:induction false} KeyValueOfPair(k: string, v: string)
    requires '=' !in k
    ensures KeyValue(k + "=" + v) == (k, v)
  {
    if |k| > 0 {
      assert (k + "=" + v)[1..] == k[1..] + "=" + v;
      KeyValueOfPair(k[1..], v);
      assert [k[0]] + k[1..] == k;
    } else {
      assert k + "=" + v == "=" + v;
    }
  }

  lemma {:induction false} SplitJoined(ps: seq<(string, string)>)
    requires |ps| > 0 && Separable(ps)
    ensures var parts := SplitOn(JoinPairs(ps), '&');
            |parts| == |ps| && forall i :: 0 <= i < |ps| ==> parts[i] == ps[i].0 + "=" + ps[i].1
  {
    var head := ps[0].0 + "=" + ps[0].1;
    assert '&' !in head by {
      assert forall j :: 0 <= j < |head| ==> head[j] != '&' by {
        forall j | 0 <= j < |head| ensures head[j] != '&' {
          if j < |ps[0].0| {
            assert head[j] == ps[0].0[j];
          } else if j > |ps[0].0| {
            assert head[j] == ps[0].1[j - |ps[0].0| - 1];
          }
        }
      }
    }
    if |ps| == 1 {
      assert JoinPairs(ps) == head + "";
      SplitPrefix(head, "", '&');
    } else {
      var tail := JoinPairs(ps[1..]);
      assert Separable(ps[1..]) by {
        forall i | 0 <= i < |ps[1..]|
          ensures '=' !in ps[1..][i].0 && '&' !in ps[1..][i].0 && '&' !in ps[1..][i].1
        {
          assert ps[1..][i] == ps[i + 1];
        }
      }
      SplitJoined(ps[1..]);
      assert JoinPairs(ps) == head + ("&" + tail);
      SplitPrefix(head, "&" + tail, '&');
      assert ("&" + tail)[1..] == tail;
    }
  }

  /** Reading the joined string back gives the pairs that were joined. */
  lemma ParseJoined(ps: seq<(string, string)>)
    requires |ps| > 0 && Separable(ps)
    ensures ParseQuery(JoinPairs(ps)) == ps
  {
    SplitJoined(ps);
    var parsed := ParseQuery(JoinPairs(ps));
    forall i | 0 <= i < |ps| ensures parsed[i] == ps[i] {
      KeyValueOfPair(ps[i].0, ps[i].1);
    }
  }

  /** The signing names used by the route service contain neither `=` nor `&`. */
  predicate PlainNames(names: seq<string>) {
    forall i :: 0 <= i < |names| ==> '=' !in names[i] && '&' !in names[i]
  }

  /** No signed value contains `&`. */
  predicate PlainValues(pub: string, p: Params, names: seq<string>) {
    '&' !in pub && forall i :: 0 <= i < |names| ==> '&' !in Render(Param(p, names[i]))
  }

  /** The canonical string determines `pub` and every signed value: two
      requests whose values are free of `&` and that differ in any signed
      value are checked against different strings. */
  lemma CanonicalDeterminesValues(pub1: string, p1: Params, pub2: string, p2: Params, names: seq<string>)
    requires PlainNames(names) && PlainValues(pub1, p1, names) && PlainValues(pub2, p2, names)
    requires Canonical(pub1, p1, names) == Canonical(pub2, p2, names)
    ensures pub1 == pub2
    ensures forall i :: 0 <= i < |names| ==> Render(Param(p1, names[i])) == Render(Param(p2, names[i]))
  {
    var ps1, ps2 := SignedPairs(pub1, p1, names), SignedPairs(pub2, p2, names);
    assert Separable(ps1) by {
      forall i | 0 <= i < |ps1| ensures '=' !in ps1[i].0 && '&' !in ps1[i].0 && '&' !in ps1[i].1 {
        if i > 0 { assert ps1[i] == (names[i - 1], Render(Param(p1, names[i - 1]))); }
      }
    }
    assert Separable(ps2) by {
      forall i | 0 <= i < |ps2| ensures '=' !in ps2[i].0 && '&' !in ps2[i].0 && '&' !in ps2[i].1 {
        if i > 0 { assert ps2[i] == (names[i - 1], Render(Param(p2, names[i - 1]))); }
      }
    }
    ParseJoined(ps1);
    ParseJoined(ps2);
    forall i | 0 <= i < |names| ensures Render(Param(p1, names[i])) == Render(Param(p2, names[i])) {
      assert ps1[i + 1] == ps2[i + 1];
    }
  }
}

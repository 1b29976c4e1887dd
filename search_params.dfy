/**
  `new URLSearchParams(init)` for a string `init`: the
  application/x-www-form-urlencoded parser of section 5.1 of the WHATWG URL
  Standard, over the string the PostgREST query tool hands it.
*/
module SearchParams {
  import opened Wrappers
  import opened Text

  /** One name/value pair, in the order the parser found it. */
  datatype Param = Param(name: string, value: string)

  /** The `+` to space step of the decoder; `%XX` sequences are kept as written. */
  function PlusToSpace(s: string): (r: string)
    ensures |r| == |s|
    ensures '+' !in r
    ensures '+' !in s ==> r == s
  {
    seq(|s|, i requires 0 <= i < |s| => if s[i] == '+' then ' ' else s[i])
  }

  /** One non-empty piece: the name is the text before the first `=`, the value all after it. */
  function ParsePair(piece: string): Param {
    match IndexOf(piece, "=")
    case None => Param(PlusToSpace(piece), "")
    case Some(i) => Param(PlusToSpace(piece[..i]), PlusToSpace(piece[i + 1..]))
  }

  /** The pieces between `&`s, each parsed, with the empty ones skipped. */
  function Pairs(pieces: seq<string>): (r: seq<Param>)
    ensures |r| <= |pieces|
    decreases |pieces|
  {
    if |pieces| == 0 then []
    else (if pieces[0] == "" then [] else [ParsePair(pieces[0])]) + Pairs(pieces[1..])
  }

  /** The list of pairs; one leading `?` of `init` is dropped first. */
  function Parse(init: string): seq<Param> {
    var body := if |init| > 0 && init[0] == '?' then init[1..] else init;
    Pairs(Split(body, '&'))
  }

  /** The index of the first pair at or after `from` with that name. */
  function FirstNamed(ps: seq<Param>, name: string, from: nat): (r: Option<nat>)
    requires from <= |ps|
    ensures r.Some? ==>
      && from <= r.value < |ps| && ps[r.value].name == name
      && forall j :: from <= j < r.value ==> ps[j].name != name
    ensures r.None? <==> forall j :: from <= j < |ps| ==> ps[j].name != name
    decreases |ps| - from
  {
    if from == |ps| then None
    else if ps[from].name == name then Some(from)
    else FirstNamed(ps, name, from + 1)
  }

  /** `params.get(name)`: the value of the first pair of that name, `None` for `null`. */
  function GetParam(ps: seq<Param>, name: string): (r: Option<string>)
    ensures r.None? <==> forall i :: 0 <= i < |ps| ==> ps[i].name != name
    ensures r.Some? ==> var i := FirstNamed(ps, name, 0).value;
      ps[i] == Param(name, r.value) && forall j :: 0 <= j < i ==> ps[j].name != name
  {
    match FirstNamed(ps, name, 0)
    case None => None
    case Some(i) => Some(ps[i].value)
  }

  // ---------------------------------------------------------------------------
  // the inverse

  /** The `name=value&...` text of a list of pairs. */
  function Serialize(ps: seq<Param>): string {
    Join(seq(|ps|, i requires 0 <= i < |ps| => ps[i].name + "=" + ps[i].value), "&")
  }

  /** A pair that needs no encoding: no `=` in its name, no `&` or `+` anywhere. */
  predicate Plain(p: Param) {
    '=' !in p.name && '&' !in p.name && '+' !in p.name && '&' !in p.value && '+' !in p.value
  }

  /** A piece is split at its first `=`; later ones stay in the value. */
  lemma ParsePairAt(a: string, b: string)
    requires '=' !in a
    ensures ParsePair(a + "=" + b) == Param(PlusToSpace(a), PlusToSpace(b))
  {
    var s := a + "=" + b;
    assert OccursAt(s, "=", |a|);
    forall j | 0 <= j < |a| ensures !OccursAt(s, "=", j) {
      assert s[j] == a[j];
    }
    assert s[..|a|] == a && s[|a| + 1..] == b;
  }

  lemma {:induction false} PairsAll(ps: seq<Param>)
    requires forall i :: 0 <= i < |ps| ==> Plain(ps[i])
    ensures Pairs(seq(|ps|, i requires 0 <= i < |ps| => ps[i].name + "=" + ps[i].value)) == ps
    decreases |ps|
  {
    var pieces := seq(|ps|, i requires 0 <= i < |ps| => ps[i].name + "=" + ps[i].value);
    if |ps| > 0 {
      ParsePairAt(ps[0].name, ps[0].value);
      assert pieces[0] != "";
      PairsAll(ps[1..]);
      assert pieces[1..] == seq(|ps[1..]|, i requires 0 <= i < |ps[1..]| => ps[1..][i].name + "=" + ps[1..][i].value);
      assert [ps[0]] + ps[1..] == ps;
    }
  }

  /**
    Parsing recovers the pairs of a serialization, with or without a leading
    `?`, so long as the first name does not itself start with `?`.
  */
  lemma ParseSerialize(ps: seq<Param>)
    requires forall i :: 0 <= i < |ps| ==> Plain(ps[i])
    requires |ps| == 0 || !StartsWith(ps[0].name, "?")
    ensures Parse(Serialize(ps)) == ps
    ensures Parse("?" + Serialize(ps)) == ps
  {
    var pieces := seq(|ps|, i requires 0 <= i < |ps| => ps[i].name + "=" + ps[i].value);
    var s := Serialize(ps);
    assert ("?" + s)[1..] == s;
    if |ps| == 0 {
      assert s == "";
      assert Split("", '&') == [""];
    } else {
      forall i | 0 <= i < |pieces| ensures '&' !in pieces[i] {
        assert pieces[i] == ps[i].name + "=" + ps[i].value;
      }
      SplitJoin(pieces, '&');
      PairsAll(ps);
      JoinHead(pieces, "&");
      assert s[0] == pieces[0][0];
      if ps[0].name == "" {
        assert pieces[0][0] == '=';
      } else {
        assert pieces[0][0] == ps[0].name[0];
        assert ps[0].name[..1] != "?";
      }
    }
  }

  /** Empty pieces, as between `&&` or after a trailing `&`, produce no pair. */
  lemma EmptyPiecesSkipped(a: string, b: string)
    requires '&' !in a
    requires |a| == 0 || a[0] != '?'
    ensures Parse(a + "&&" + b) == Parse(a + "&" + b)
  {
    var s1 := a + "&&" + b;
    var s2 := a + "&" + b;
    assert s1 == a + ['&'] + (['&'] + b);
    assert s2 == a + ['&'] + b;
    SplitAtSep(a, '&', ['&'] + b);
    SplitAtSep(a, '&', b);
    SplitAtSep("", '&', b);
    assert "" + ['&'] + b == ['&'] + b;
    var p1 := Split(s1, '&');
    var p2 := Split(s2, '&');
    assert p1 == [a] + ([""] + Split(b, '&'));
    assert p2 == [a] + Split(b, '&');
    assert p1[1..] == [""] + Split(b, '&');
    assert ([""] + Split(b, '&'))[1..] == Split(b, '&');
    assert Pairs(p1[1..]) == Pairs(Split(b, '&'));
    assert Pairs(p1) == Pairs(p2);
    if |a| == 0 {
      assert s1[0] == '&' && s2[0] == '&';
    } else {
      assert s1[0] == a[0] && s2[0] == a[0];
    }
  }
}

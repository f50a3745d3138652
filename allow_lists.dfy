/**
  Parsing of one condition string into its allow-list: the expression
  `condition.replacingOccurrences(of: " ", with: "").split(separator: ",")`
  that both scanning algorithms of `Mask` evaluate before testing a `C`
  placeholder. `split` drops empty pieces (Swift's default
  `omittingEmptySubsequences: true`), which is modelled by `NonEmpty`.
 */
module AllowLists {

  /** The text with every space character removed, order kept. */
  function RemoveSpaces(s: string): (r: string)
    ensures ' ' !in r
    ensures |r| <= |s|
    ensures forall c :: c != ' ' ==> multiset(r)[c] == multiset(s)[c]
    ensures ' ' !in s ==> r == s
    ensures |s| == 1 ==> r == (if s[0] == ' ' then [] else s)
    decreases |s|
  {
    if s == [] then []
    else
      assert s == [s[0]] + s[1..];
      if s[0] == ' ' then RemoveSpaces(s[1..]) else [s[0]] + RemoveSpaces(s[1..])
  }

  /**
    Splitting on ',' keeping empty pieces: the pieces between consecutive
    commas and the two ends. `Join` is its inverse (see `JoinSplit` and
    `SplitJoin` below).
   */
  function SplitCommas(s: string): (pieces: seq<string>)
    ensures |pieces| >= 1
    ensures forall p :: p in pieces ==> ',' !in p
    ensures forall p, c :: p in pieces && c in p ==> c in s
    decreases |s|
  {
    if s == [] then [[]]
    else
      var rest := SplitCommas(s[1..]);
      if s[0] == ',' then [[]] + rest
      else [[s[0]] + rest[0]] + rest[1..]
  }

  /** The pieces written back with a ',' between each two. */
  function Join(pieces: seq<string>): string
    requires |pieces| >= 1
    decreases |pieces|
  {
    if |pieces| == 1 then pieces[0] else pieces[0] + [','] + Join(pieces[1..])
  }

  /** The pieces that are not empty, in their order. */
  function NonEmpty(pieces: seq<string>): (r: seq<string>)
    ensures |r| <= |pieces|
    ensures forall p :: p in r <==> p in pieces && p != []
    decreases |pieces|
  {
    if pieces == [] then []
    else (if pieces[0] == [] then [] else [pieces[0]]) + NonEmpty(pieces[1..])
  }

  /**
    The allow-list of one condition: its comma-separated alternatives with
    spaces removed and empty alternatives dropped.
   */
  function AllowList(condition: string): (allowed: seq<string>)
    ensures forall p :: p in allowed ==> p != [] && ',' !in p && ' ' !in p
  {
    NonEmpty(SplitCommas(RemoveSpaces(condition)))
  }

  /** Joining the pieces of a split gives back the text that was split. */
  lemma {:induction false} JoinSplit(s: string)
    ensures Join(SplitCommas(s)) == s
    decreases |s|
  {
    if s != [] {
      var rest := SplitCommas(s[1..]);
      JoinSplit(s[1..]);
      assert s == [s[0]] + s[1..];
      if s[0] == ',' {
        assert SplitCommas(s)[1..] == rest;
      } else if |rest| > 1 {
        var ps := SplitCommas(s);
        assert ps[0] == [s[0]] + rest[0];
        assert ps[1..] == rest[1..];
        calc {
          Join(ps);
          ([s[0]] + rest[0]) + [','] + Join(rest[1..]);
          [s[0]] + (rest[0] + [','] + Join(rest[1..]));
          [s[0]] + Join(rest);
        }
      }
    }
  }

  /** A comma-free text splits into itself alone. */
  lemma {:induction false} SplitPlain(p: string)
    requires ',' !in p
    ensures SplitCommas(p) == [p]
    decreases |p|
  {
    if p != [] {
      SplitPlain(p[1..]);
      assert p == [p[0]] + p[1..];
    }
  }

  /** A comma-free text followed by a comma splits off as the first piece. */
  lemma {:induction false} SplitAfter(p: string, s: string)
    requires ',' !in p
    ensures SplitCommas(p + [','] + s) == [p] + SplitCommas(s)
    decreases |p|
  {
    if p == [] {
      assert p + [','] + s == [','] + s;
      assert ([','] + s)[1..] == s;
    } else {
      var t := p + [','] + s;
      assert t[0] == p[0];
      assert t[1..] == p[1..] + [','] + s;
      SplitAfter(p[1..], s);
      assert p == [p[0]] + p[1..];
    }
  }

  /** Splitting comma-free pieces after joining them gives back the pieces. */
  lemma {:induction false} SplitJoin(pieces: seq<string>)
    requires |pieces| >= 1
    requires forall p :: p in pieces ==> ',' !in p
    ensures SplitCommas(Join(pieces)) == pieces
    decreases |pieces|
  {
    if |pieces| == 1 {
      SplitPlain(pieces[0]);
    } else {
      assert pieces[0] in pieces;
      assert forall p :: p in pieces[1..] ==> p in pieces;
      SplitJoin(pieces[1..]);
      SplitAfter(pieces[0], Join(pieces[1..]));
      assert pieces == [pieces[0]] + pieces[1..];
    }
  }

  /** Removing spaces works piecewise: what is kept of `a` comes before what is kept of `b`. */
  lemma {:induction false} RemoveSpacesConcat(a: string, b: string)
    ensures RemoveSpaces(a + b) == RemoveSpaces(a) + RemoveSpaces(b)
    decreases |a|
  {
    if a == [] {
      assert a + b == b;
    } else {
      var rest := a[1..] + b;
      assert (a + b)[0] == a[0] && (a + b)[1..] == rest;
      RemoveSpacesConcat(a[1..], b);
      var head: string := if a[0] == ' ' then [] else [a[0]];
      assert RemoveSpaces(a + b) == head + RemoveSpaces(rest);
      assert RemoveSpaces(a) == head + RemoveSpaces(a[1..]);
    }
  }

  /** A space inserted anywhere in a condition does not change its allow-list. */
  lemma SpaceIgnored(a: string, b: string)
    ensures AllowList(a + [' '] + b) == AllowList(a + b)
  {
    var with, without := a + [' '] + b, a + b;
    RemoveSpacesConcat(a + [' '], b);
    RemoveSpacesConcat(a, [' ']);
    RemoveSpacesConcat(a, b);
    assert RemoveSpaces([' ']) == [];
    assert RemoveSpaces(with) == RemoveSpaces(without);
  }

  /** Joining space-free pieces gives a space-free text. */
  lemma {:induction false} JoinNoSpace(pieces: seq<string>)
    requires |pieces| >= 1
    requires forall p :: p in pieces ==> ' ' !in p
    ensures ' ' !in Join(pieces)
    decreases |pieces|
  {
    assert pieces[0] in pieces;
    if |pieces| > 1 {
      assert forall p :: p in pieces[1..] ==> p in pieces;
      JoinNoSpace(pieces[1..]);
    }
  }

  /**
    The condition written as its alternatives separated by ',' (none holding
    a ',' or a space) allows exactly those alternatives that are not empty,
    in their order.
   */
  lemma AllowListOfJoin(pieces: seq<string>)
    requires |pieces| >= 1
    requires forall p :: p in pieces ==> ',' !in p && ' ' !in p
    ensures AllowList(Join(pieces)) == NonEmpty(pieces)
    ensures forall a :: a in AllowList(Join(pieces)) <==> a in pieces && a != []
  {
    JoinNoSpace(pieces);
    SplitJoin(pieces);
  }
}

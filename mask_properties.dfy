/**
  What the two scanning algorithms of `Mask` guarantee for every
  configuration, every pair of character classes and every input: the
  length bound, where each output character comes from (which pattern
  position and which input position, read in order), the consumption of
  conditions, the absence of trailing literals, and that typing more input
  only extends the output.
 */
module MaskProperties {
  import opened AllowLists
  import opened MaskingCore

  /** The number of `C` placeholders in a piece of pattern. */
  function CountConditions(s: string): nat
    decreases |s|
  {
    if s == [] then 0 else CountConditions(s[..|s| - 1]) + (if s[|s| - 1] == 'C' then 1 else 0)
  }

  /**
    `ch` may stand at an output position taken from pattern position `p` when
    `k` conditions were consumed before it and input position `q` was read
    for it: a literal is itself; a placeholder accepts `input[q]` and shows it
    through the template.
   */
  ghost predicate EmittedAt(m: Mask, cls: CharClasses, input: string, p: nat, k: nat, q: nat, ch: char)
    requires p < |m.expression|
  {
    match Classify(m.expression[p])
    case None => ch == m.expression[p]
    case Some(t) => q < |input| && Accepts(m, cls, t, k, input[q]) && ch == TemplateCharacter(m.template, p, input[q])
  }

  /** A literal position emits itself, whatever was consumed before it. */
  lemma EmittedLiteral(m: Mask, cls: CharClasses, input: string, p: nat, k: nat, q: nat)
    requires p < |m.expression| && IsLiteral(m.expression[p])
    ensures EmittedAt(m, cls, input, p, k, q, m.expression[p])
  {
  }

  ghost predicate Increasing(ps: seq<nat>)
  {
    forall a, b :: 0 <= a < b < |ps| ==> ps[a] < ps[b]
  }

  ghost predicate Below(ps: seq<nat>, n: nat)
  {
    forall a :: 0 <= a < |ps| ==> ps[a] < n
  }

  /**
    `n` copies of input position `q`: what a commit records for its pending
    literals and its placeholder, which all enter the output at that read.
   */
  function Fill(q: nat, n: nat): (r: seq<nat>)
    ensures |r| == n && forall k :: 0 <= k < n ==> r[k] == q
  {
    seq(n, _ => q)
  }

  /** A condition slot never accepts a space or a ',': no allow-list holds one. */
  lemma ConditionRejectsSeparators(m: Mask, cls: CharClasses, k: nat, c: char)
    ensures Accepts(m, cls, Condition, k, c) ==> c != ' ' && c != ','
  {
    if Accepts(m, cls, Condition, k, c) {
      assert c in [c];
    }
  }

  /**
    A condition written as its alternatives separated by ',' lets its slot
    accept exactly the characters written as one of the alternatives.
   */
  lemma ConditionAcceptsAlternatives(m: Mask, cls: CharClasses, k: nat, c: char, pieces: seq<string>)
    requires k < |m.conditions| && |pieces| >= 1 && m.conditions[k] == Join(pieces)
    requires forall p :: p in pieces ==> ',' !in p && ' ' !in p
    ensures Accepts(m, cls, Condition, k, c) <==> [c] in pieces
  {
    AllowListOfJoin(pieces);
  }

  // ---------------------------------------------------------------------------
  // `.ignore`: output position j is pattern position j
  // ---------------------------------------------------------------------------

  /**
    The input positions `qs` of an `.ignore` output are read in order: the
    position read for a placeholder comes before every position recorded
    after it.
   */
  ghost predicate ReadInOrderAt(e: string, qs: seq<nat>)
  {
    forall i, j :: 0 <= i < j < |qs| && i < |e| && !IsLiteral(e[i]) ==> qs[i] < qs[j]
  }

  /**
    An `.ignore` output with the input positions `qs` read for it: no longer
    than the pattern, position j emitted by pattern position j (the j-th
    condition slot testing the condition counted by the `C`s before it) from
    input position `qs[j]`, the placeholders read in input order, and the
    last character emitted by a placeholder.
   */
  ghost predicate IgnoreOutput(m: Mask, cls: CharClasses, input: string, r: string, qs: seq<nat>)
  {
    |r| <= |m.expression| && |qs| == |r| &&
    (forall j :: 0 <= j < |r| ==> EmittedAt(m, cls, input, j, CountConditions(m.expression[..j]), qs[j], r[j])) &&
    ReadInOrderAt(m.expression, qs) &&
    (r == [] || !IsLiteral(m.expression[|r| - 1]))
  }

  /** The invariant of the `.ignore` loop, with the input positions read for `result`. */
  ghost predicate IgnoreInv(m: Mask, cls: CharClasses, input: string, s: Scan, qs: seq<nat>)
  {
    s.inputIndex <= |input| && s.patternIndex <= |m.expression| &&
    |s.result| + |s.segment| == s.patternIndex &&
    s.conditionIndex == CountConditions(m.expression[..s.patternIndex]) &&
    IgnoreOutput(m, cls, input, s.result, qs) &&
    Below(qs, s.inputIndex) &&
    PendingLiterals(m.expression, |s.result|, s.segment)
  }

  /** `seg` is the run of literals of `e` that starts at position `from`. */
  ghost predicate PendingLiterals(e: string, from: nat, seg: string)
  {
    forall k :: 0 <= k < |seg| ==> from + k < |e| && seg[k] == e[from + k] && IsLiteral(seg[k])
  }

  lemma PendingLiteralsAppend(e: string, from: nat, seg: string)
    requires PendingLiterals(e, from, seg)
    requires from + |seg| < |e| && IsLiteral(e[from + |seg|])
    ensures PendingLiterals(e, from, seg + [e[from + |seg|]])
  {
    var seg' := seg + [e[from + |seg|]];
    forall k | 0 <= k < |seg'|
      ensures from + k < |e| && seg'[k] == e[from + k] && IsLiteral(seg'[k])
    {
      if k < |seg| {
        assert seg'[k] == seg[k];
      }
    }
  }

  /** A `.ignore` literal step keeps the invariant, whether or not it consumed input. */
  lemma IgnoreKeepsLiteral(m: Mask, cls: CharClasses, input: string, s: Scan, qs: seq<nat>, k: nat)
    requires IgnoreInv(m, cls, input, s, qs)
    requires s.patternIndex < |m.expression| && IsLiteral(m.expression[s.patternIndex])
    requires s.inputIndex <= k <= |input|
    ensures IgnoreInv(m, cls, input,
      s.(inputIndex := k, patternIndex := s.patternIndex + 1, segment := s.segment + [m.expression[s.patternIndex]]), qs)
  {
    var e, p := m.expression, s.patternIndex;
    assert e[..p + 1][..p] == e[..p];
    PendingLiteralsAppend(e, |s.result|, s.segment);
  }

  /**
    Recording the read `q` for `n` new output positions keeps the `.ignore`
    order, when all new positions but the last are literals and every earlier
    read comes before `q`.
   */
  lemma ReadInOrderAtCommit(e: string, qs: seq<nat>, q: nat, n: nat)
    requires ReadInOrderAt(e, qs) && Below(qs, q)
    requires forall k :: |qs| <= k < |qs| + n - 1 ==> k < |e| && IsLiteral(e[k])
    ensures ReadInOrderAt(e, qs + Fill(q, n)) && Below(qs + Fill(q, n), q + 1)
  {
    var qs' := qs + Fill(q, n);
    forall i, j | 0 <= i < j < |qs'| && i < |e| && !IsLiteral(e[i])
      ensures qs'[i] < qs'[j]
    {
      if j < |qs| {
        assert qs'[i] == qs[i] && qs'[j] == qs[j];
      } else if i < |qs| {
        assert qs'[i] == qs[i] && qs'[j] == q;
      } else {
        assert false;
      }
    }
  }

  /** The characters of a `.ignore` commit are emitted by their positions, from the recorded reads. */
  lemma IgnoreCommitEmitted(m: Mask, cls: CharClasses, input: string, res: string, qs: seq<nat>,
                            seg: string, q: nat, out: char, r: string, qs': seq<nat>)
    requires |qs| == |res| && |res| + |seg| < |m.expression|
    requires forall j :: 0 <= j < |res| ==> EmittedAt(m, cls, input, j, CountConditions(m.expression[..j]), qs[j], res[j])
    requires PendingLiterals(m.expression, |res|, seg)
    requires EmittedAt(m, cls, input, |res| + |seg|, CountConditions(m.expression[..|res| + |seg|]), q, out)
    requires r == res + (seg + [out]) && qs' == qs + Fill(q, |seg| + 1)
    ensures forall j :: 0 <= j < |r| ==> EmittedAt(m, cls, input, j, CountConditions(m.expression[..j]), qs'[j], r[j])
  {
    var e := m.expression;
    forall j | 0 <= j < |r|
      ensures EmittedAt(m, cls, input, j, CountConditions(e[..j]), qs'[j], r[j])
    {
      if j < |res| {
        assert r[j] == res[j] && qs'[j] == qs[j];
      } else if j < |res| + |seg| {
        assert r[j] == seg[j - |res|];
        EmittedLiteral(m, cls, input, j, CountConditions(e[..j]), qs'[j]);
      } else {
        assert r[j] == out && qs'[j] == q;
      }
    }
  }

  /**
    A `.ignore` step committing an accepted character keeps the invariant: `r`
    is the state after the commit of `seg` and `out`, and `qs'` records the
    read `q` for each of the committed characters.
   */
  lemma IgnoreKeepsAccepted(m: Mask, cls: CharClasses, input: string, res: string, seg: string, qs: seq<nat>,
                            p: nat, q: nat, ci: nat, t: CharType, out: char, r: Scan, qs': seq<nat>)
    requires q < |input| && p < |m.expression| && |res| + |seg| == p && |qs| == |res|
    requires ci == CountConditions(m.expression[..p])
    requires forall j :: 0 <= j < |res| ==> EmittedAt(m, cls, input, j, CountConditions(m.expression[..j]), qs[j], res[j])
    requires ReadInOrderAt(m.expression, qs) && Below(qs, q)
    requires PendingLiterals(m.expression, |res|, seg)
    requires Classify(m.expression[p]) == Some(t) && Accepts(m, cls, t, ci, input[q])
    requires out == TemplateCharacter(m.template, p, input[q])
    requires r == Scan(q + 1, p + 1, ci + (if t == Condition then 1 else 0), res + (seg + [out]), "")
    requires qs' == qs + Fill(q, |seg| + 1)
    ensures IgnoreInv(m, cls, input, r, qs')
  {
    var e := m.expression;
    assert e[..p + 1][..p] == e[..p];
    assert r.conditionIndex == CountConditions(e[..p + 1]);
    IgnoreCommitEmitted(m, cls, input, res, qs, seg, q, out, r.result, qs');
    forall k | |qs| <= k < |qs| + |seg|
      ensures k < |e| && IsLiteral(e[k])
    {
      assert seg[k - |qs|] == e[|res| + (k - |qs|)];
    }
    ReadInOrderAtCommit(e, qs, q, |seg| + 1);
    assert r.result[|r.result| - 1] == out && |r.result| - 1 == p;
    IgnoreInvCommitted(m, cls, input, r, qs');
  }

  /** A `.ignore` state with nothing pending whose committed text is a valid output keeps the invariant. */
  lemma IgnoreInvCommitted(m: Mask, cls: CharClasses, input: string, r: Scan, qs: seq<nat>)
    requires r.inputIndex <= |input| && r.patternIndex <= |m.expression|
    requires |r.result| == r.patternIndex && r.segment == []
    requires r.conditionIndex == CountConditions(m.expression[..r.patternIndex])
    requires |qs| == |r.result|
    requires forall j :: 0 <= j < |r.result| ==>
      EmittedAt(m, cls, input, j, CountConditions(m.expression[..j]), qs[j], r.result[j])
    requires ReadInOrderAt(m.expression, qs) && Below(qs, r.inputIndex)
    requires r.result == [] || !IsLiteral(m.expression[|r.result| - 1])
    ensures IgnoreInv(m, cls, input, r, qs)
  {
  }

  /** A `.ignore` step rejecting the input character keeps the invariant. */
  lemma IgnoreKeepsRejected(m: Mask, cls: CharClasses, input: string, s: Scan, qs: seq<nat>)
    requires IgnoreInv(m, cls, input, s, qs) && s.inputIndex < |input|
    ensures IgnoreInv(m, cls, input, s.(inputIndex := s.inputIndex + 1), qs)
  {
  }

  /** One `.ignore` iteration keeps the invariant, with the reads extended by what it commits. */
  lemma IgnoreStepKeeps(m: Mask, cls: CharClasses, input: string, s: Scan, qs: seq<nat>) returns (qs': seq<nat>)
    requires s.inputIndex < |input| && s.patternIndex < |m.expression|
    requires IgnoreInv(m, cls, input, s, qs)
    ensures IgnoreInv(m, cls, input, IgnoreStep(m, cls, input, s), qs')
  {
    var e, p, c := m.expression, s.patternIndex, input[s.inputIndex];
    var r := IgnoreStep(m, cls, input, s);
    qs' := qs;
    if IsLiteral(e[p]) {
      var k := if c == e[p] then s.inputIndex + 1 else s.inputIndex;
      assert r == s.(inputIndex := k, patternIndex := p + 1, segment := s.segment + [e[p]]);
      IgnoreKeepsLiteral(m, cls, input, s, qs, k);
    } else {
      var t := Classify(e[p]).value;
      if Accepts(m, cls, t, s.conditionIndex, c) {
        var out := TemplateCharacter(m.template, p, c);
        assert r == Scan(s.inputIndex + 1, p + 1, s.conditionIndex + (if t == Condition then 1 else 0),
                         s.result + (s.segment + [out]), "");
        qs' := qs + Fill(s.inputIndex, |s.segment| + 1);
        IgnoreKeepsAccepted(m, cls, input, s.result, s.segment, qs, p, s.inputIndex, s.conditionIndex, t, out, r, qs');
      } else {
        assert r == s.(inputIndex := s.inputIndex + 1);
        IgnoreKeepsRejected(m, cls, input, s, qs);
      }
    }
  }

  lemma {:induction false} IgnoreRunKeeps(m: Mask, cls: CharClasses, input: string, s: Scan, qs: seq<nat>)
    returns (qs': seq<nat>)
    requires IgnoreInv(m, cls, input, s, qs)
    ensures IgnoreOutput(m, cls, input, IgnoreRun(m, cls, input, s), qs') && Below(qs', |input|)
    decreases |input| - s.inputIndex + |m.expression| - s.patternIndex
  {
    if s.inputIndex < |input| && s.patternIndex < |m.expression| {
      var next := IgnoreStepKeeps(m, cls, input, s, qs);
      qs' := IgnoreRunKeeps(m, cls, input, IgnoreStep(m, cls, input, s), next);
    } else {
      qs' := qs;
    }
  }

  /**
    Under `.ignore` output position j is pattern position j, and `qs[j]` is
    the input position read for it: a literal there is emitted as itself, a
    placeholder as the template's display character or `input[qs[j]]`, which
    it accepts, and a `C` tests the condition numbered by the `C`s before it.
    The placeholders read the input in order.
   */
  lemma IgnoreAlignment(m: Mask, cls: CharClasses, input: string) returns (qs: seq<nat>)
    ensures |qs| == |Ignored(m, cls, input)| <= |m.expression|
    ensures forall j :: 0 <= j < |Ignored(m, cls, input)| ==>
      qs[j] < |input| &&
      EmittedAt(m, cls, input, j, CountConditions(m.expression[..j]), qs[j], Ignored(m, cls, input)[j])
    ensures ReadInOrderAt(m.expression, qs)
  {
    qs := IgnoreRunKeeps(m, cls, input, Start, []);
  }

  /** `.ignore` output is empty or ends at a placeholder position. */
  lemma IgnoreNoTrailingLiterals(m: Mask, cls: CharClasses, input: string)
    ensures var r := Ignored(m, cls, input);
      r == [] || (|r| <= |m.expression| && !IsLiteral(m.expression[|r| - 1]))
  {
    var _ := IgnoreRunKeeps(m, cls, input, Start, []);
  }

  /** The committed text of a `.ignore` scan is never taken back. */
  lemma {:induction false} IgnoreRunGrows(m: Mask, cls: CharClasses, input: string, s: Scan)
    ensures s.result <= IgnoreRun(m, cls, input, s)
    decreases |input| - s.inputIndex + |m.expression| - s.patternIndex
  {
    if s.inputIndex < |input| && s.patternIndex < |m.expression| {
      var r := IgnoreStep(m, cls, input, s);
      IgnoreRunGrows(m, cls, input, r);
      PrefixTransitive(s.result, r.result, IgnoreRun(m, cls, input, r));
    }
  }

  lemma {:induction false} IgnoreRunExtends(m: Mask, cls: CharClasses, input: string, more: string, s: Scan)
    requires s.inputIndex <= |input|
    ensures IgnoreRun(m, cls, input, s) <= IgnoreRun(m, cls, input + more, s)
    decreases |input| - s.inputIndex + |m.expression| - s.patternIndex
  {
    if s.inputIndex < |input| && s.patternIndex < |m.expression| {
      assert (input + more)[s.inputIndex] == input[s.inputIndex];
      assert IgnoreStep(m, cls, input, s) == IgnoreStep(m, cls, input + more, s);
      IgnoreRunExtends(m, cls, input, more, IgnoreStep(m, cls, input, s));
    } else {
      IgnoreRunGrows(m, cls, input + more, s);
    }
  }

  // ---------------------------------------------------------------------------
  // `.consume`: output positions are an increasing selection of pattern positions
  // ---------------------------------------------------------------------------

  /** The number of `C` placeholders among the pattern positions `ps`. */
  function SlotsBefore(e: string, ps: seq<nat>): nat
    decreases |ps|
  {
    if ps == [] then 0
    else SlotsBefore(e, ps[..|ps| - 1]) + (if ps[|ps| - 1] < |e| && e[ps[|ps| - 1]] == 'C' then 1 else 0)
  }

  /**
    Output `r` is taken from the pattern positions `pos`, in increasing order,
    with input position `qs[j]` read for output position j: each character is
    what its position may emit from that read with the conditions consumed by
    the earlier `C` positions, and the last one is a placeholder's.
   */
  ghost predicate Aligned(m: Mask, cls: CharClasses, input: string, r: string, pos: seq<nat>, qs: seq<nat>)
  {
    |pos| == |r| && |qs| == |r| && Below(pos, |m.expression|) && Increasing(pos) &&
    (forall j :: 0 <= j < |r| ==> EmittedAt(m, cls, input, pos[j], SlotsBefore(m.expression, pos[..j]), qs[j], r[j])) &&
    (r == [] || !IsLiteral(m.expression[pos[|r| - 1]]))
  }

  /**
    The input positions `qs` of a `.consume` output taken from pattern
    positions `pos` are read in order: the position read for a placeholder
    comes before every position recorded after it.
   */
  ghost predicate ReadInOrder(e: string, pos: seq<nat>, qs: seq<nat>)
  {
    forall i, j :: 0 <= i < j < |qs| && i < |pos| && pos[i] < |e| && !IsLiteral(e[pos[i]]) ==> qs[i] < qs[j]
  }

  /** The invariant of the `.consume` loop, with the positions of `result` and `segment` and the reads of `result`. */
  ghost predicate ConsumeInv(m: Mask, cls: CharClasses, input: string, s: Scan, rpos: seq<nat>, spos: seq<nat>,
                             qs: seq<nat>)
  {
    s.inputIndex <= |input| && s.patternIndex <= |m.expression| &&
    |s.result| + |s.segment| <= s.patternIndex &&
    |spos| == |s.segment| &&
    Aligned(m, cls, input, s.result, rpos, qs) &&
    ReadInOrder(m.expression, rpos, qs) && Below(qs, s.inputIndex) &&
    Increasing(rpos + spos) && Below(rpos + spos, s.patternIndex) &&
    s.conditionIndex == SlotsBefore(m.expression, rpos) &&
    (forall k :: 0 <= k < |spos| ==>
       spos[k] < |m.expression| && IsLiteral(m.expression[spos[k]]) && s.segment[k] == m.expression[spos[k]])
  }

  lemma {:induction false} SlotsAfterLiterals(e: string, a: seq<nat>, b: seq<nat>)
    requires forall k :: 0 <= k < |b| ==> b[k] < |e| && IsLiteral(e[b[k]])
    ensures SlotsBefore(e, a + b) == SlotsBefore(e, a)
    decreases |b|
  {
    if b == [] {
      assert a + b == a;
    } else {
      var b' := b[..|b| - 1];
      assert (a + b)[..|a + b| - 1] == a + b';
      SlotsAfterLiterals(e, a, b');
    }
  }

  lemma IncreasingAppend(ps: seq<nat>, p: nat)
    requires Increasing(ps) && Below(ps, p)
    ensures Increasing(ps + [p]) && Below(ps + [p], p + 1)
  {
  }

  /**
    A `.consume` step that commits nothing keeps the condition counter and
    adds a literal to the pending ones, or leaves them as they are.
   */
  lemma ConsumeUncommittedShape(m: Mask, cls: CharClasses, input: string, s: Scan)
    requires s.inputIndex < |input| && s.patternIndex < |m.expression|
    requires ConsumeStep(m, cls, input, s).result == s.result
    ensures ConsumeStep(m, cls, input, s).conditionIndex == s.conditionIndex
    ensures ConsumeStep(m, cls, input, s).segment ==
      if IsLiteral(m.expression[s.patternIndex]) then s.segment + [m.expression[s.patternIndex]] else s.segment
  {
  }

  /** A `.consume` step that commits nothing keeps the invariant. */
  lemma ConsumeKeepsUncommitted(m: Mask, cls: CharClasses, input: string, s: Scan, rpos: seq<nat>, spos: seq<nat>,
                                qs: seq<nat>)
    returns (spos': seq<nat>)
    requires s.inputIndex < |input| && s.patternIndex < |m.expression|
    requires ConsumeInv(m, cls, input, s, rpos, spos, qs)
    requires ConsumeStep(m, cls, input, s).result == s.result
    ensures ConsumeInv(m, cls, input, ConsumeStep(m, cls, input, s), rpos, spos', qs)
  {
    var e, p := m.expression, s.patternIndex;
    var r := ConsumeStep(m, cls, input, s);
    ConsumeUncommittedShape(m, cls, input, s);
    IncreasingAppend(rpos + spos, p);
    if IsLiteral(e[p]) {
      spos' := spos + [p];
      assert rpos + spos' == (rpos + spos) + [p];
      forall k | 0 <= k < |spos'|
        ensures spos'[k] < |e| && IsLiteral(e[spos'[k]]) && r.segment[k] == e[spos'[k]]
      {
        if k < |spos| {
          assert spos'[k] == spos[k] && r.segment[k] == s.segment[k];
        }
      }
    } else {
      spos' := spos;
    }
  }

  /** Committing the pending literals and one placeholder's character keeps the alignment. */
  lemma AlignedCommit(m: Mask, cls: CharClasses, input: string, res: string, rpos: seq<nat>, qs: seq<nat>,
                      seg: string, spos: seq<nat>, p: nat, q: nat, out: char)
    requires Aligned(m, cls, input, res, rpos, qs)
    requires |spos| == |seg|
    requires forall k :: 0 <= k < |spos| ==>
      spos[k] < |m.expression| && IsLiteral(m.expression[spos[k]]) && seg[k] == m.expression[spos[k]]
    requires Increasing(rpos + spos) && Below(rpos + spos, p) && p < |m.expression|
    requires !IsLiteral(m.expression[p])
    requires EmittedAt(m, cls, input, p, SlotsBefore(m.expression, rpos), q, out)
    ensures Aligned(m, cls, input, res + (seg + [out]), rpos + spos + [p], qs + Fill(q, |seg| + 1))
  {
    IncreasingAppend(rpos + spos, p);
    CommitEmitted(m, cls, input, res, rpos, qs, seg, spos, p, q, out,
                  res + (seg + [out]), rpos + spos + [p], qs + Fill(q, |seg| + 1));
  }

  /** Each character of a `.consume` commit is emitted by its position from its recorded read. */
  lemma CommitEmitted(m: Mask, cls: CharClasses, input: string, res: string, rpos: seq<nat>, qs: seq<nat>,
                      seg: string, spos: seq<nat>, p: nat, q: nat, out: char,
                      r: string, pos: seq<nat>, qs': seq<nat>)
    requires |rpos| == |res| && |qs| == |res| && Below(rpos, |m.expression|)
    requires forall j :: 0 <= j < |res| ==>
      EmittedAt(m, cls, input, rpos[j], SlotsBefore(m.expression, rpos[..j]), qs[j], res[j])
    requires |spos| == |seg|
    requires forall k :: 0 <= k < |spos| ==>
      spos[k] < |m.expression| && IsLiteral(m.expression[spos[k]]) && seg[k] == m.expression[spos[k]]
    requires p < |m.expression| && EmittedAt(m, cls, input, p, SlotsBefore(m.expression, rpos), q, out)
    requires r == res + (seg + [out]) && pos == rpos + spos + [p] && qs' == qs + Fill(q, |seg| + 1)
    ensures forall j :: 0 <= j < |r| ==>
      pos[j] < |m.expression| && EmittedAt(m, cls, input, pos[j], SlotsBefore(m.expression, pos[..j]), qs'[j], r[j])
  {
    var e := m.expression;
    forall j | 0 <= j < |r|
      ensures pos[j] < |e| && EmittedAt(m, cls, input, pos[j], SlotsBefore(e, pos[..j]), qs'[j], r[j])
    {
      if j < |res| {
        assert pos[..j] == rpos[..j];
        assert r[j] == res[j] && pos[j] == rpos[j] && qs'[j] == qs[j];
      } else if j < |res| + |seg| {
        assert r[j] == seg[j - |res|] && pos[j] == spos[j - |res|];
        EmittedLiteral(m, cls, input, pos[j], SlotsBefore(e, pos[..j]), qs'[j]);
      } else {
        assert pos[..j] == rpos + spos;
        SlotsAfterLiterals(e, rpos, spos);
        assert pos[j] == p && r[j] == out && qs'[j] == q;
      }
    }
  }

  /**
    Recording the read `q` for the pending literals and the placeholder of a
    commit keeps the `.consume` order, when every earlier read comes before `q`.
   */
  lemma ReadInOrderCommit(e: string, rpos: seq<nat>, qs: seq<nat>, spos: seq<nat>, p: nat, q: nat)
    requires |qs| == |rpos| && ReadInOrder(e, rpos, qs) && Below(qs, q)
    requires forall k :: 0 <= k < |spos| ==> spos[k] < |e| && IsLiteral(e[spos[k]])
    ensures ReadInOrder(e, rpos + spos + [p], qs + Fill(q, |spos| + 1))
    ensures Below(qs + Fill(q, |spos| + 1), q + 1)
  {
    var pos, qs' := rpos + spos + [p], qs + Fill(q, |spos| + 1);
    forall i, j | 0 <= i < j < |qs'| && i < |pos| && pos[i] < |e| && !IsLiteral(e[pos[i]])
      ensures qs'[i] < qs'[j]
    {
      if j < |qs| {
        assert pos[i] == rpos[i] && qs'[i] == qs[i] && qs'[j] == qs[j];
      } else if i < |qs| {
        assert qs'[i] == qs[i] && qs'[j] == q;
      } else {
        assert false;
      }
    }
  }

  /** A `.consume` step that commits: the placeholder accepted, and what the new state is. */
  lemma ConsumeCommitShape(m: Mask, cls: CharClasses, input: string, s: Scan)
    requires s.inputIndex < |input| && s.patternIndex < |m.expression|
    requires ConsumeStep(m, cls, input, s).result != s.result
    ensures !IsLiteral(m.expression[s.patternIndex])
    ensures var t := Classify(m.expression[s.patternIndex]).value;
      var c := input[s.inputIndex];
      Accepts(m, cls, t, s.conditionIndex, c) &&
      ConsumeStep(m, cls, input, s) ==
        Scan(s.inputIndex + 1, s.patternIndex + 1, s.conditionIndex + (if t == Condition then 1 else 0),
             s.result + (s.segment + [TemplateCharacter(m.template, s.patternIndex, c)]), "")
  {
  }

  /**
    Committing an accepted character of position `p` keeps the `.consume`
    invariant: `r` is the state after the commit of `seg` and `out`, `rpos'`
    adds the positions of `seg` and `p`, and `qs'` records the read `q` for
    each of the committed characters.
   */
  lemma ConsumeKeepsCommitted(m: Mask, cls: CharClasses, input: string, res: string, seg: string,
                              rpos: seq<nat>, spos: seq<nat>, qs: seq<nat>, p: nat, q: nat, ci: nat,
                              t: CharType, out: char, r: Scan, rpos': seq<nat>, qs': seq<nat>)
    requires q < |input| && p < |m.expression| && |res| + |seg| <= p && |spos| == |seg|
    requires Aligned(m, cls, input, res, rpos, qs)
    requires ReadInOrder(m.expression, rpos, qs) && Below(qs, q)
    requires Increasing(rpos + spos) && Below(rpos + spos, p)
    requires ci == SlotsBefore(m.expression, rpos)
    requires forall k :: 0 <= k < |spos| ==>
      spos[k] < |m.expression| && IsLiteral(m.expression[spos[k]]) && seg[k] == m.expression[spos[k]]
    requires Classify(m.expression[p]) == Some(t) && Accepts(m, cls, t, ci, input[q])
    requires out == TemplateCharacter(m.template, p, input[q])
    requires r == Scan(q + 1, p + 1, ci + (if t == Condition then 1 else 0), res + (seg + [out]), "")
    requires rpos' == rpos + spos + [p] && qs' == qs + Fill(q, |seg| + 1)
    ensures ConsumeInv(m, cls, input, r, rpos', [], qs')
  {
    var e := m.expression;
    AlignedCommit(m, cls, input, res, rpos, qs, seg, spos, p, q, out);
    ReadInOrderCommit(e, rpos, qs, spos, p, q);
    SlotsCommit(e, rpos, spos, p);
    IncreasingAppend(rpos + spos, p);
    ConsumeInvCommitted(m, cls, input, r, rpos', qs');
  }

  lemma ConsumeInvCommitted(m: Mask, cls: CharClasses, input: string, r: Scan, rpos: seq<nat>, qs: seq<nat>)
    requires r.inputIndex <= |input| && r.patternIndex <= |m.expression|
    requires |r.result| <= r.patternIndex && r.segment == []
    requires Aligned(m, cls, input, r.result, rpos, qs)
    requires ReadInOrder(m.expression, rpos, qs) && Below(qs, r.inputIndex)
    requires Increasing(rpos) && Below(rpos, r.patternIndex)
    requires r.conditionIndex == SlotsBefore(m.expression, rpos)
    ensures ConsumeInv(m, cls, input, r, rpos, [], qs)
  {
    assert rpos + [] == rpos;
  }

  /** The `C` count after a commit: the pending literals add none, position `p` adds one if it is a `C`. */
  lemma SlotsCommit(e: string, rpos: seq<nat>, spos: seq<nat>, p: nat)
    requires forall k :: 0 <= k < |spos| ==> spos[k] < |e| && IsLiteral(e[spos[k]])
    requires p < |e|
    ensures SlotsBefore(e, rpos + spos + [p]) == SlotsBefore(e, rpos) + (if e[p] == 'C' then 1 else 0)
  {
    var ps := rpos + spos + [p];
    assert ps[..|ps| - 1] == rpos + spos;
    SlotsAfterLiterals(e, rpos, spos);
  }

  lemma {:induction false} ConsumeRunKeeps(m: Mask, cls: CharClasses, input: string, s: Scan, rpos: seq<nat>,
                                           spos: seq<nat>, qs: seq<nat>)
    returns (pos: seq<nat>, qs': seq<nat>)
    requires ConsumeInv(m, cls, input, s, rpos, spos, qs)
    ensures |ConsumeRun(m, cls, input, s)| <= |m.expression|
    ensures Aligned(m, cls, input, ConsumeRun(m, cls, input, s), pos, qs')
    ensures ReadInOrder(m.expression, pos, qs') && Below(qs', |input|)
    decreases |m.expression| - s.patternIndex
  {
    if s.inputIndex < |input| && s.patternIndex < |m.expression| {
      var r := ConsumeStep(m, cls, input, s);
      if r.result == s.result {
        var spos' := ConsumeKeepsUncommitted(m, cls, input, s, rpos, spos, qs);
        pos, qs' := ConsumeRunKeeps(m, cls, input, r, rpos, spos', qs);
      } else {
        ConsumeCommitShape(m, cls, input, s);
        var p, q := s.patternIndex, s.inputIndex;
        var t := Classify(m.expression[p]).value;
        var out := TemplateCharacter(m.template, p, input[q]);
        var rpos', qs'' := rpos + spos + [p], qs + Fill(q, |s.segment| + 1);
        ConsumeKeepsCommitted(m, cls, input, s.result, s.segment, rpos, spos, qs, p, q, s.conditionIndex,
                              t, out, r, rpos', qs'');
        pos, qs' := ConsumeRunKeeps(m, cls, input, r, rpos', [], qs'');
      }
    } else {
      pos, qs' := rpos, qs;
    }
  }

  /**
    Under `.consume` the output is taken from an increasing selection `pos` of
    pattern positions, and `qs[j]` is the input position read for output
    position j: literals as themselves, placeholders as the template's
    display character or `input[qs[j]]`, which they accept, the k-th emitted
    `C` testing condition k; the placeholders read the input in order and
    the last character is a placeholder's.
   */
  lemma ConsumeAlignment(m: Mask, cls: CharClasses, input: string) returns (pos: seq<nat>, qs: seq<nat>)
    ensures Aligned(m, cls, input, Consumed(m, cls, input), pos, qs)
    ensures ReadInOrder(m.expression, pos, qs) && Below(qs, |input|)
  {
    pos, qs := ConsumeRunKeeps(m, cls, input, Start, [], [], []);
  }

  /** The committed text of a `.consume` scan is never taken back. */
  lemma {:induction false} ConsumeRunGrows(m: Mask, cls: CharClasses, input: string, s: Scan)
    ensures s.result <= ConsumeRun(m, cls, input, s)
    decreases |m.expression| - s.patternIndex
  {
    if s.inputIndex < |input| && s.patternIndex < |m.expression| {
      var r := ConsumeStep(m, cls, input, s);
      ConsumeRunGrows(m, cls, input, r);
      PrefixTransitive(s.result, r.result, ConsumeRun(m, cls, input, r));
    }
  }

  lemma {:induction false} ConsumeRunExtends(m: Mask, cls: CharClasses, input: string, more: string, s: Scan)
    requires s.inputIndex <= |input|
    ensures ConsumeRun(m, cls, input, s) <= ConsumeRun(m, cls, input + more, s)
    decreases |m.expression| - s.patternIndex
  {
    if s.inputIndex < |input| && s.patternIndex < |m.expression| {
      assert (input + more)[s.inputIndex] == input[s.inputIndex];
      assert ConsumeStep(m, cls, input, s) == ConsumeStep(m, cls, input + more, s);
      ConsumeRunExtends(m, cls, input, more, ConsumeStep(m, cls, input, s));
    } else {
      ConsumeRunGrows(m, cls, input + more, s);
    }
  }

  // ---------------------------------------------------------------------------
  // `maskedString`, both policies
  // ---------------------------------------------------------------------------

  /** The masked string never exceeds `limit`, whatever the policy and input. */
  lemma MaskedWithinLimit(m: Mask, cls: CharClasses, input: string)
    ensures |Masked(m, cls, input)| <= Limit(m)
  {
    match m.policy
    case Ignore => var _ := IgnoreRunKeeps(m, cls, input, Start, []);
    case Consume => var _, _ := ConsumeRunKeeps(m, cls, input, Start, [], [], []);
  }

  /** Empty input gives the empty string under both policies. */
  lemma MaskedEmptyInput(m: Mask, cls: CharClasses)
    ensures Masked(m, cls, "") == ""
  {
  }

  /** Typing more input only extends the masked string, never rewrites it. */
  lemma MaskedExtends(m: Mask, cls: CharClasses, input: string, more: string)
    ensures Masked(m, cls, input) <= Masked(m, cls, input + more)
  {
    match m.policy
    case Ignore => IgnoreRunExtends(m, cls, input, more, Start);
    case Consume => ConsumeRunExtends(m, cls, input, more, Start);
  }

  /** A template of the wrong length has no effect: it is dropped by `NewMask`. */
  lemma MismatchedTemplateDropped(policy: Policy, expression: string, conditions: seq<string>,
                                  template: string, cls: CharClasses, input: string)
    requires |template| != |expression|
    ensures Masked(NewMask(policy, expression, conditions, Some(template)), cls, input)
         == Masked(NewMask(policy, expression, conditions, None), cls, input)
  {
  }

  lemma PrefixTransitive(a: string, b: string, c: string)
    requires a <= b && b <= c
    ensures a <= c
  {
    assert c[..|b|][..|a|] == c[..|a|];
  }
}

/**
 * The position grouper of SynonymMatchQuery.createFieldQuery: one pass over the
 * analysed tokens that cuts them into position groups. A token with a nonzero
 * position increment seals the open group; every token is then appended to the
 * open group, so a token with increment 0 (a synonym at the same position)
 * joins the group of the token before it.
 *
 * Three views of the same grouping are related here:
 *  - IsPositionGrouping: what a correct grouping is, stated declaratively;
 *  - Group: a reference grouping of the tokens themselves, built one token at a time;
 *  - Fold / PositionTerms: the source's accumulator loop over TermUnit snapshots,
 *    and CollectPositionTerms, the same loop reading a reused byte buffer.
 */
module Grouping {

  import opened Wrappers
  import opened Values
  import opened TermTypes

  /**
   * One token of the analysed stream: its position increment, its type label
   * ("word", "SYNONYM", ...) and its term bytes. The position length the source
   * also reads is never used and is not modelled.
   */
  datatype Token = Token(posInc: int, ttype: string, bytes: Bytes)

  /** The groups laid end to end. */
  function Concat<T>(gs: seq<seq<T>>): seq<T>
  {
    if |gs| == 0 then [] else Concat(gs[..|gs| - 1]) + gs[|gs| - 1]
  }

  /**
   * `g` is a well-formed position group: it is non-empty, it starts at a token
   * with nonzero increment unless it is the first group, and every later member
   * has increment 0.
   */
  ghost predicate GroupOk(g: seq<Token>, first: bool)
  {
    && |g| > 0
    && (!first ==> g[0].posInc != 0)
    && (forall j :: 0 < j < |g| ==> g[j].posInc == 0)
  }

  ghost predicate GroupsOk(gs: seq<seq<Token>>)
  {
    forall k :: 0 <= k < |gs| ==> GroupOk(gs[k], k == 0)
  }

  /**
   * `gs` cuts `toks` into position groups: every group is non-empty, the groups
   * laid end to end give back `toks`, each group after the first starts at a
   * token with nonzero increment, and every other member of a group has
   * increment 0. The first token starts the first group whatever its increment.
   */
  ghost predicate IsPositionGrouping(toks: seq<Token>, gs: seq<seq<Token>>)
  {
    GroupsOk(gs) && Concat(gs) == toks
  }

  /** Adds one unit after the groups: to the last group when its increment is 0, else as a new group. */
  function Extend<T>(gs: seq<seq<T>>, posInc: int, u: T): seq<seq<T>>
  {
    if |gs| > 0 && posInc == 0 then gs[..|gs| - 1] + [gs[|gs| - 1] + [u]]
    else gs + [[u]]
  }

  lemma ConcatSnoc<T>(gs: seq<seq<T>>, g: seq<T>)
    ensures Concat(gs + [g]) == Concat(gs) + g
  {
    assert (gs + [g])[..|gs|] == gs;
  }

  lemma GroupsOkSnoc(gs: seq<seq<Token>>, g: seq<Token>)
    ensures GroupsOk(gs + [g]) <==> GroupsOk(gs) && GroupOk(g, |gs| == 0)
  {
    var gs' := gs + [g];
    assert forall k :: 0 <= k < |gs| ==> gs'[k] == gs[k];
    assert gs'[|gs|] == g;
  }

  /** A group stays well-formed when a token with increment 0 joins it, or when its last member leaves it. */
  lemma GroupOkSnoc(g: seq<Token>, first: bool, t: Token)
    requires |g| > 0
    ensures GroupOk(g + [t], first) <==> GroupOk(g, first) && t.posInc == 0
  {
    var g' := g + [t];
    assert forall j :: 0 <= j < |g| ==> g'[j] == g[j];
    assert g'[|g|] == t;
  }

  lemma ExtendPreservesGrouping(toks: seq<Token>, gs: seq<seq<Token>>, t: Token)
    requires IsPositionGrouping(toks, gs)
    ensures IsPositionGrouping(toks + [t], Extend(gs, t.posInc, t))
  {
    if |gs| > 0 && t.posInc == 0 {
      var n := |gs|;
      var init := gs[..n - 1];
      assert gs == init + [gs[n - 1]];
      ConcatSnoc(init, gs[n - 1]);
      ConcatSnoc(init, gs[n - 1] + [t]);
      GroupsOkSnoc(init, gs[n - 1]);
      GroupOkSnoc(gs[n - 1], n == 1, t);
      GroupsOkSnoc(init, gs[n - 1] + [t]);
    } else {
      ConcatSnoc(gs, [t]);
      GroupsOkSnoc(gs, [t]);
    }
  }

  /** The reference grouping: each token extends the grouping of the tokens before it. */
  function Group(toks: seq<Token>): (gs: seq<seq<Token>>)
    ensures IsPositionGrouping(toks, gs)
  {
    if |toks| == 0 then []
    else
      var prefix := toks[..|toks| - 1];
      var last := toks[|toks| - 1];
      ExtendPreservesGrouping(prefix, Group(prefix), last);
      assert prefix + [last] == toks;
      Extend(Group(prefix), last.posInc, last)
  }

  /** A grouping with non-empty groups and no tokens has no groups. */
  lemma EmptyGrouping(gs: seq<seq<Token>>)
    requires GroupsOk(gs)
    ensures |Concat(gs)| == 0 <==> |gs| == 0
  {
    if |gs| > 0 {
      assert gs == gs[..|gs| - 1] + [gs[|gs| - 1]];
      ConcatSnoc(gs[..|gs| - 1], gs[|gs| - 1]);
      assert GroupOk(gs[|gs| - 1], |gs| == 1);
    }
  }

  /**
   * Removing the last token from a correct grouping leaves a correct grouping
   * of the tokens before it, which Extend takes back to the original.
   */
  lemma PeelLast(toks: seq<Token>, gs: seq<seq<Token>>) returns (gs': seq<seq<Token>>)
    requires IsPositionGrouping(toks, gs) && |gs| > 0
    ensures |toks| > 0
    ensures IsPositionGrouping(toks[..|toks| - 1], gs')
    ensures gs == Extend(gs', toks[|toks| - 1].posInc, toks[|toks| - 1])
  {
    EmptyGrouping(gs);
    var n := |gs|;
    var init := gs[..n - 1];
    var last := gs[n - 1];
    var m := |toks|;
    var prefix := toks[..m - 1];
    var t := toks[m - 1];
    assert Concat(init) + last == toks && GroupsOk(init) && GroupOk(last, n == 1) by {
      assert gs == init + [last];
      ConcatSnoc(init, last);
      GroupsOkSnoc(init, last);
    }
    assert last[|last| - 1] == t;
    if |last| == 1 {
      assert last == [t];
      assert Concat(init) == prefix;
      gs' := init;
      assert gs == init + [[t]];
    } else {
      var last' := last[..|last| - 1];
      assert last == last' + [t];
      assert IsPositionGrouping(prefix, init + [last']) && t.posInc == 0 by {
        GroupOkSnoc(last', n == 1, t);
        ConcatSnoc(init, last');
        GroupsOkSnoc(init, last');
      }
      gs' := init + [last'];
      assert gs'[..n - 1] == init;
      assert gs == init + [last' + [t]];
    }
  }

  /** The position grouping of a token sequence is unique: any correct grouping is Group's. */
  lemma {:induction false} GroupingIsUnique(toks: seq<Token>, gs: seq<seq<Token>>)
    requires IsPositionGrouping(toks, gs)
    ensures gs == Group(toks)
    decreases |toks|
  {
    EmptyGrouping(gs);
    if |gs| > 0 {
      var gs' := PeelLast(toks, gs);
      var prefix := toks[..|toks| - 1];
      GroupingIsUnique(prefix, gs');
      assert Group(toks) == Extend(Group(prefix), toks[|toks| - 1].posInc, toks[|toks| - 1]);
    }
  }

  /** Group is characterised by IsPositionGrouping, in both directions. */
  lemma GroupingCharacterised(toks: seq<Token>, gs: seq<seq<Token>>)
    ensures IsPositionGrouping(toks, gs) <==> gs == Group(toks)
  {
    if IsPositionGrouping(toks, gs) {
      GroupingIsUnique(toks, gs);
    }
  }

  /** The number of tokens after the first whose increment is nonzero. */
  function Breaks(toks: seq<Token>): nat
  {
    if |toks| <= 1 then 0
    else Breaks(toks[..|toks| - 1]) + (if toks[|toks| - 1].posInc != 0 then 1 else 0)
  }

  /** One group for the first token, plus one for every later token with nonzero increment. */
  lemma {:induction false} GroupCount(toks: seq<Token>)
    ensures |Group(toks)| == if |toks| == 0 then 0 else 1 + Breaks(toks)
    decreases |toks|
  {
    if |toks| > 0 {
      var prefix := toks[..|toks| - 1];
      GroupCount(prefix);
      EmptyGrouping(Group(prefix));
    }
  }

  /** A non-empty stream forms exactly one group iff no token after the first moves the position. */
  lemma SinglePosition(toks: seq<Token>)
    requires |toks| > 0
    ensures |Group(toks)| == 1 <==> forall i :: 0 < i < |toks| ==> toks[i].posInc == 0
    ensures (forall i :: 0 < i < |toks| ==> toks[i].posInc == 0) ==> Group(toks) == [toks]
  {
    var gs := Group(toks);
    ConcatSnoc([], toks);
    assert [] + [toks] == [toks];
    if |gs| == 1 {
      ConcatSnoc([], gs[0]);
      assert [] + [gs[0]] == gs;
      assert gs[0] == toks;
    }
    if forall i :: 0 < i < |toks| ==> toks[i].posInc == 0 {
      assert IsPositionGrouping(toks, [toks]);
      GroupingIsUnique(toks, [toks]);
    }
  }

  // ---------------------------------------------------------------------------
  // The source's accumulator loop

  /** The loop state of createFieldQuery: the sealed groups and the open group (`null` when none). */
  datatype Accumulator<T> = Accumulator(sealed: seq<seq<T>>, open: Option<seq<T>>)

  /** One loop iteration: a nonzero increment seals the open group; the unit joins the (new) open group. */
  function Accept<T>(acc: Accumulator<T>, posInc: int, u: T): (r: Accumulator<T>)
    ensures |r.sealed| == |acc.sealed| + (if posInc != 0 && acc.open.Some? then 1 else 0)
    ensures forall k :: 0 <= k < |acc.sealed| ==> r.sealed[k] == acc.sealed[k]
  {
    var acc1 := if posInc != 0 && acc.open.Some? then Accumulator(acc.sealed + [acc.open.value], None) else acc;
    var current := if acc1.open.None? then [] else acc1.open.value;
    Accumulator(acc1.sealed, Some(current + [u]))
  }

  /** After the loop: the open group, if any, is sealed too. */
  function Seal<T>(acc: Accumulator<T>): (gs: seq<seq<T>>)
    ensures |gs| == |acc.sealed| + (if acc.open.Some? then 1 else 0)
    ensures gs[..|acc.sealed|] == acc.sealed
    ensures acc.open.Some? ==> gs[|acc.sealed|] == acc.open.value
  {
    if acc.open.Some? then acc.sealed + [acc.open.value] else acc.sealed
  }

  /** Accepting a unit and sealing is extending the sealed view, from any reachable state. */
  lemma AcceptExtends<T>(acc: Accumulator<T>, posInc: int, u: T)
    requires acc.open.None? ==> acc.sealed == []
    ensures Seal(Accept(acc, posInc, u)) == Extend(Seal(acc), posInc, u)
  {
    var empty: seq<T> := [];
    assert empty + [u] == [u];
    if acc.open.None? {
      assert Accept(acc, posInc, u) == Accumulator([], Some([u]));
    } else if posInc == 0 {
      assert (acc.sealed + [acc.open.value])[..|acc.sealed|] == acc.sealed;
    } else {
      assert Accept(acc, posInc, u) == Accumulator(acc.sealed + [acc.open.value], Some([u]));
    }
  }

  /** TermType's constructor applied to the current token: an owned copy of its bytes. */
  function Snapshot(field: string, t: Token): TermUnit
  {
    TermUnit(field, t.ttype, Some(t.bytes))
  }

  /** The loop of createFieldQuery over the whole stream. */
  function Fold(field: string, toks: seq<Token>): (acc: Accumulator<TermUnit>)
    ensures acc.open.None? <==> |toks| == 0
    ensures acc.open.None? ==> acc.sealed == []
  {
    if |toks| == 0 then Accumulator([], None)
    else Accept(Fold(field, toks[..|toks| - 1]), toks[|toks| - 1].posInc, Snapshot(field, toks[|toks| - 1]))
  }

  /** The position groups createFieldQuery collects from a stream. */
  function PositionTerms(field: string, toks: seq<Token>): (gs: seq<seq<TermUnit>>)
    ensures |gs| == 0 <==> |toks| == 0
  {
    Seal(Fold(field, toks))
  }

  function Snapshots(field: string, ts: seq<Token>): (us: seq<TermUnit>)
    ensures |us| == |ts|
    ensures forall j :: 0 <= j < |ts| ==> us[j] == Snapshot(field, ts[j])
  {
    seq(|ts|, j requires 0 <= j < |ts| => Snapshot(field, ts[j]))
  }

  function SnapshotGroups(field: string, gs: seq<seq<Token>>): (us: seq<seq<TermUnit>>)
    ensures |us| == |gs|
    ensures forall k :: 0 <= k < |gs| ==> us[k] == Snapshots(field, gs[k])
  {
    seq(|gs|, k requires 0 <= k < |gs| => Snapshots(field, gs[k]))
  }

  lemma SnapshotGroupsSingle(field: string, g: seq<Token>)
    ensures SnapshotGroups(field, [g]) == [Snapshots(field, g)]
  {
    var us := SnapshotGroups(field, [g]);
    assert |us| == 1 && us[0] == Snapshots(field, g);
  }

  lemma SnapshotGroupsExtend(field: string, gs: seq<seq<Token>>, t: Token)
    ensures SnapshotGroups(field, Extend(gs, t.posInc, t))
         == Extend(SnapshotGroups(field, gs), t.posInc, Snapshot(field, t))
  {
    var n := |gs|;
    if n > 0 && t.posInc == 0 {
      assert Snapshots(field, gs[n - 1] + [t]) == Snapshots(field, gs[n - 1]) + [Snapshot(field, t)];
    } else {
      assert Snapshots(field, [t]) == [Snapshot(field, t)];
    }
  }

  /**
   * The source's loop collects exactly the reference grouping, each token
   * replaced by its snapshot.
   */
  lemma {:induction false} PositionTermsAreSnapshotGroups(field: string, toks: seq<Token>)
    ensures PositionTerms(field, toks) == SnapshotGroups(field, Group(toks))
    decreases |toks|
  {
    if |toks| > 0 {
      var prefix := toks[..|toks| - 1];
      var t := toks[|toks| - 1];
      PositionTermsAreSnapshotGroups(field, prefix);
      AcceptExtends(Fold(field, prefix), t.posInc, Snapshot(field, t));
      SnapshotGroupsExtend(field, Group(prefix), t);
    }
  }

  lemma {:induction false} ConcatSnapshots(field: string, gs: seq<seq<Token>>)
    ensures Concat(SnapshotGroups(field, gs)) == Snapshots(field, Concat(gs))
    decreases |gs|
  {
    if |gs| > 0 {
      var init := gs[..|gs| - 1];
      ConcatSnapshots(field, init);
      assert SnapshotGroups(field, gs)[..|gs| - 1] == SnapshotGroups(field, init);
      assert Snapshots(field, Concat(init) + gs[|gs| - 1])
          == Snapshots(field, Concat(init)) + Snapshots(field, gs[|gs| - 1]);
    }
  }

  /**
   * The collected groups are non-empty, and laid end to end they are the
   * snapshots of the input tokens in stream order.
   */
  lemma PositionTermsPartitionStream(field: string, toks: seq<Token>)
    ensures forall k :: 0 <= k < |PositionTerms(field, toks)| ==> |PositionTerms(field, toks)[k]| > 0
    ensures Concat(PositionTerms(field, toks)) == Snapshots(field, toks)
    ensures |PositionTerms(field, toks)| == 0 <==> |toks| == 0
  {
    PositionTermsAreSnapshotGroups(field, toks);
    ConcatSnapshots(field, Group(toks));
    EmptyGrouping(Group(toks));
  }

  // ---------------------------------------------------------------------------
  // The same loop over a stream that reuses one term buffer

  /** The stream advances: its term attribute's buffer is overwritten with the next token's bytes. */
  method Advance(buffer: BytesRef, content: Bytes)
    modifies buffer, buffer.bytes
    ensures buffer.Valid() && buffer.Content() == content
    ensures buffer.bytes == old(buffer.bytes) || fresh(buffer.bytes)
  {
    if buffer.bytes.Length < |content| {
      buffer.bytes := new bv8[|content|];
    }
    var i := 0;
    while i < |content|
      invariant 0 <= i <= |content| <= buffer.bytes.Length
      invariant forall k :: 0 <= k < i ==> buffer.bytes[k] == content[k]
      modifies buffer.bytes
    {
      buffer.bytes[i] := content[i];
      i := i + 1;
    }
    buffer.offset := 0;
    buffer.length := |content|;
    assert buffer.Content() == content;
  }

  /** `ts` are TermType objects that currently show the units `us`, one for one. */
  ghost predicate Shows(ts: seq<TermType>, us: seq<TermUnit>)
    reads set t | t in ts
    reads set t | t in ts :: t.bytes
    reads set t | t in ts && t.bytes != null :: t.bytes.bytes
  {
    && |ts| == |us|
    && forall j :: 0 <= j < |ts| ==> ts[j].Valid() && ts[j].View() == us[j]
  }

  /** No TermType in `ts` shares the stream's term buffer `buffer`, nor the array behind it. */
  ghost predicate Apart(ts: seq<TermType>, buffer: BytesRef)
    reads set t | t in ts
    reads set t | t in ts :: t.bytes
    reads buffer
  {
    forall j :: 0 <= j < |ts| ==> ts[j].bytes != null && ts[j].bytes != buffer && ts[j].bytes.bytes != buffer.bytes
  }

  /** One more object, showing one more unit, keeps a group shown and apart from the buffer. */
  lemma ShowsSnoc(ts: seq<TermType>, us: seq<TermUnit>, t: TermType, u: TermUnit, buffer: BytesRef)
    requires Shows(ts, us) && Apart(ts, buffer)
    requires t.Valid() && t.View() == u
    requires t.bytes != null && t.bytes != buffer && t.bytes.bytes != buffer.bytes
    ensures Shows(ts + [t], us + [u]) && Apart(ts + [t], buffer)
  {
    var ts' := ts + [t];
    assert forall j :: 0 <= j < |ts| ==> ts'[j] == ts[j];
  }

  /** Sealing one more shown group keeps every sealed group shown and apart from the buffer. */
  lemma SealedSnoc(ps: seq<seq<TermType>>, ss: seq<seq<TermUnit>>, p: seq<TermType>, s: seq<TermUnit>,
                   buffer: BytesRef)
    requires |ps| == |ss|
    requires forall k :: 0 <= k < |ps| ==> Shows(ps[k], ss[k]) && Apart(ps[k], buffer)
    requires Shows(p, s) && Apart(p, buffer)
    ensures forall k :: 0 <= k < |ps| + 1 ==> Shows((ps + [p])[k], (ss + [s])[k]) && Apart((ps + [p])[k], buffer)
  {
    assert forall k :: 0 <= k < |ps| ==> (ps + [p])[k] == ps[k] && (ss + [s])[k] == ss[k];
  }

  /** One step of the loop, on the accumulator: the fold over one more token accepts its snapshot. */
  lemma FoldStep(field: string, stream: seq<Token>, i: nat)
    requires i < |stream|
    ensures Fold(field, stream[..i + 1]) == Accept(Fold(field, stream[..i]), stream[i].posInc, Snapshot(field, stream[i]))
  {
    assert stream[..i + 1][..i] == stream[..i];
  }

  /**
   * The stream advances to `token` and a TermType is made from its term
   * buffer: the object shows the token, and holds neither the buffer nor the
   * array behind it.
   */
  method Capture(field: string, token: Token, termAtt: BytesRef) returns (t: TermType)
    modifies termAtt, termAtt.bytes
    ensures t.Valid() && t.View() == Snapshot(field, token)
    ensures t.bytes != null && t.bytes != termAtt && t.bytes.bytes != termAtt.bytes
    ensures fresh(t) && fresh(t.bytes) && fresh(t.bytes.bytes)
    ensures termAtt.bytes == old(termAtt.bytes) || fresh(termAtt.bytes)
  {
    Advance(termAtt, token.bytes);
    t := new TermType(field, token.ttype, termAtt);
  }

  /**
   * One iteration of the loop on the objects, reading token `i`: the groups
   * collected so far keep showing what they showed, apart from the buffer, and
   * change exactly as the accumulator does when the fold takes in the token.
   */
  method Step(field: string, stream: seq<Token>, i: nat, termAtt: BytesRef,
              positionTerms: seq<seq<TermType>>, tmpTerms: Option<seq<TermType>>)
    returns (positionTerms': seq<seq<TermType>>, tmpTerms': Option<seq<TermType>>)
    requires i < |stream|
    requires var acc := Fold(field, stream[..i]);
             && |positionTerms| == |acc.sealed|
             && (forall k :: 0 <= k < |positionTerms| ==> Shows(positionTerms[k], acc.sealed[k]) && Apart(positionTerms[k], termAtt))
             && (tmpTerms.None? <==> acc.open.None?)
             && (tmpTerms.Some? ==> Shows(tmpTerms.value, acc.open.value) && Apart(tmpTerms.value, termAtt))
    modifies termAtt, termAtt.bytes
    ensures termAtt.bytes == old(termAtt.bytes) || fresh(termAtt.bytes)
    ensures var acc := Fold(field, stream[..i + 1]);
            && |positionTerms'| == |acc.sealed|
            && (forall k :: 0 <= k < |positionTerms'| ==> Shows(positionTerms'[k], acc.sealed[k]) && Apart(positionTerms'[k], termAtt))
            && (tmpTerms'.None? <==> acc.open.None?)
            && (tmpTerms'.Some? ==> Shows(tmpTerms'.value, acc.open.value) && Apart(tmpTerms'.value, termAtt))
  {
    ghost var acc := Fold(field, stream[..i]);
    var token := stream[i];
    FoldStep(field, stream, i);
    var t := Capture(field, token, termAtt);
    assert forall k :: 0 <= k < |positionTerms| ==> Shows(positionTerms[k], acc.sealed[k]) && Apart(positionTerms[k], termAtt);
    assert tmpTerms.Some? ==> Shows(tmpTerms.value, acc.open.value) && Apart(tmpTerms.value, termAtt);
    positionTerms' := positionTerms;
    tmpTerms' := tmpTerms;
    if token.posInc != 0 && tmpTerms'.Some? {
      SealedSnoc(positionTerms', acc.sealed, tmpTerms'.value, acc.open.value, termAtt);
      positionTerms' := positionTerms' + [tmpTerms'.value];
      tmpTerms' := None;
    }
    if tmpTerms'.None? {
      tmpTerms' := Some([]);
    }
    ghost var open := if token.posInc != 0 || acc.open.None? then [] else acc.open.value;
    ShowsSnoc(tmpTerms'.value, open, t, Snapshot(field, token), termAtt);
    tmpTerms' := Some(tmpTerms'.value + [t]);
  }

  /**
   * createFieldQuery's loop as written: every token is read through one term
   * buffer that each advance overwrites, and a TermType object is made from it
   * before the next advance. Because the TermType constructor copies the
   * buffer, no collected object shares it, and at the end the objects show
   * exactly the groups of PositionTerms.
   */
  method CollectPositionTerms(field: string, stream: seq<Token>) returns (positionTerms: seq<seq<TermType>>)
    ensures |positionTerms| == |PositionTerms(field, stream)|
    ensures forall k :: 0 <= k < |positionTerms| ==> Shows(positionTerms[k], PositionTerms(field, stream)[k])
  {
    positionTerms := [];
    var tmpTerms: Option<seq<TermType>> := None;
    var termAtt := new BytesRef([]);
    var i := 0;
    while i < |stream|
      invariant 0 <= i <= |stream|
      invariant fresh(termAtt) && fresh(termAtt.bytes)
      invariant var acc := Fold(field, stream[..i]);
                && |positionTerms| == |acc.sealed|
                && (forall k :: 0 <= k < |positionTerms| ==> Shows(positionTerms[k], acc.sealed[k]) && Apart(positionTerms[k], termAtt))
                && (tmpTerms.None? <==> acc.open.None?)
                && (tmpTerms.Some? ==> Shows(tmpTerms.value, acc.open.value) && Apart(tmpTerms.value, termAtt))
    {
      positionTerms, tmpTerms := Step(field, stream, i, termAtt, positionTerms, tmpTerms);
      i := i + 1;
    }
    assert stream[..i] == stream;
    if tmpTerms.Some? {
      positionTerms := positionTerms + [tmpTerms.value];
    }
  }
}

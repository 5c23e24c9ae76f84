/** The guarded block in the user's shell rc file (connected_tools.rs). */
module ShellBlock {
  import opened Wrappers
  import opened Text

  datatype Marks = Marks(begin: string, end: string)

  const NAME := "rootmode connected apps"
  const MARKS := Around(NAME)

  function Around(name: string): Marks { Marks("# >>> " + name + " >>>", "# <<< " + name + " <<<") }

  predicate GoodMarks(m: Marks) {
    && |m.begin| == |m.end| > 1 && m.begin != m.end
    && '\n' !in m.begin && '\n' !in m.end && !IsSpace(m.end[|m.end| - 1])
  }

  lemma MarksAreGood(name: string)
    requires '\n' !in name
    ensures GoodMarks(Around(name))
  {
    var m := Around(name);
    assert m.begin[2] == '>' && m.end[2] == '<' && m.end[|m.end| - 1] == '<';
  }

  lemma TheMarksAreGood()
    ensures GoodMarks(MARKS)
  {
    assert '\n' !in NAME;
    MarksAreGood(NAME);
  }

  function Block(m: Marks, inner: string): string { m.begin + ("\n" + inner + ("\n" + m.end)) }

  function RemoveBlock(m: Marks, text: string): string {
    match Find(text, m.begin)
    case None => text
    case Some(start) =>
      match Find(text[start..], m.end)
      case None => text
      case Some(rel) => text[..start] + text[start + rel + |m.end|..]
  }

  function ReplaceBlock(m: Marks, text: string, block: string): string {
    var trimmed := TrimEnd(RemoveBlock(m, text));
    if trimmed == "" then block + "\n" else trimmed + "\n\n" + block + "\n"
  }

  /** What stands in front of the block once the old one is gone. */
  function Rest(m: Marks, text: string): string { TrimEnd(RemoveBlock(m, text)) }

  /** Within the block the end mark stands at its end and nowhere else. */
  lemma BlockEndsOnce(m: Marks, inner: string, k: nat)
    requires GoodMarks(m) && Find(inner, m.end).None?
    ensures At(Block(m, inner), m.end, k) <==> k == |Block(m, inner)| - |m.end|
  {
    var middle, tail := "\n" + inner, "\n" + m.end;
    NoStraddle(m.begin, middle + tail, m.end, k);
    assert "\n" + inner + tail == middle + tail;
    AtMeans(m.begin, m.end, k);
    assert m.begin[0..0 + |m.end|] == m.begin;
    if k > |m.begin| {
      NoStraddle(middle, tail, m.end, k - |m.begin|);
      InnerHasNoEnd(m, inner, k - |m.begin|);
      if k - |m.begin| > |middle| {
        AtMeans(tail, m.end, k - |m.begin| - |middle|);
        assert tail[1..1 + |m.end|] == m.end;
      }
    }
  }

  lemma InnerHasNoEnd(m: Marks, inner: string, k: nat)
    requires GoodMarks(m) && Find(inner, m.end).None?
    ensures !At("\n" + inner, m.end, k)
  {
    var s := "\n" + inner;
    if k == 0 {
      NotOverNewline(s, m.end, 0, 0);
    } else {
      FindMeans(inner, m.end);
      Shifted(s, m.end, k);
      assert s[1..] == inner;
    }
  }

  /** A block opens with the begin mark, and the end mark stands in it once, at its end. */
  predicate IsBlock(m: Marks, block: string) {
    && At(block, m.begin, 0) && |block| > |m.end|
    && Find(block, m.end) == Some(|block| - |m.end|)
  }

  lemma BlockIsBlock(m: Marks, inner: string)
    requires GoodMarks(m) && Find(inner, m.end).None?
    ensures IsBlock(m, Block(m, inner))
  {
    forall k: nat ensures At(Block(m, inner), m.end, k) <==> k == |Block(m, inner)| - |m.end| {
      BlockEndsOnce(m, inner, k);
    }
    AtMeans(Block(m, inner), m.begin, 0);
    assert Block(m, inner)[0..0 + |m.begin|] == m.begin;
    FindsFirst(Block(m, inner), m.end, |Block(m, inner)| - |m.end|);
  }

  lemma BlockEnd(m: Marks, block: string)
    requires GoodMarks(m) && IsBlock(m, block)
    ensures Find(block + "\n", m.end) == Some(|block| - |m.end|)
  {
    FindInFirst(block, "\n", m.end);
  }

  /** Text without the begin mark, then the block: the block is what the search finds. */
  lemma FindWritten(m: Marks, before: string, block: string)
    requires GoodMarks(m) && IsBlock(m, block) && Find(before, m.begin).None?
    requires before == "" || before[|before| - 1] == '\n'
    ensures Find(before + (block + "\n"), m.begin) == Some(|before|)
  {
    var text := before + (block + "\n");
    BlockStands(m, before, block);
    FindMeans(before, m.begin);
    forall k: nat | k < |before| ensures !At(text, m.begin, k) {
      ClosedLine(before, block + "\n", m.begin, k);
    }
    FindsFirst(text, m.begin, |before|);
  }

  lemma BlockStands(m: Marks, before: string, block: string)
    requires IsBlock(m, block)
    ensures At(before + (block + "\n"), m.begin, |before|)
  {
    var text := before + (block + "\n");
    AtMeans(block, m.begin, 0);
    assert text[|before|..|before| + |m.begin|] == block[0..0 + |m.begin|];
    SameThere(text, block, m.begin, |before|, 0);
  }

  /** A text is cut from where the begin mark is found through the end mark found after it. */
  lemma CutOut(m: Marks, text: string, p: nat, q: nat)
    requires Find(text, m.begin) == Some(p) && Find(text[p..], m.end) == Some(q)
    ensures RemoveBlock(m, text) == text[..p] + text[p + q + |m.end|..]
  {
  }

  lemma SliceOver(a: string, b: string, p: nat, k: nat)
    requires p <= k <= |a|
    ensures (a + b)[..p] == a[..p] && (a + b)[p..] == a[p..] + b && (a + b)[k..] == a[k..] + b
  {
  }

  /** Taking the written block out again leaves the text before it. */
  lemma RemoveWritten(m: Marks, before: string, block: string)
    requires GoodMarks(m) && IsBlock(m, block) && Find(before, m.begin).None?
    requires before == "" || before[|before| - 1] == '\n'
    ensures RemoveBlock(m, before + (block + "\n")) == before + "\n"
  {
    WrittenBlockIsFound(m, before, block);
    CutWritten(m, before, block);
  }

  lemma WrittenBlockIsFound(m: Marks, before: string, block: string)
    requires GoodMarks(m) && IsBlock(m, block) && Find(before, m.begin).None?
    requires before == "" || before[|before| - 1] == '\n'
    ensures var text := before + (block + "\n");
            Find(text, m.begin) == Some(|before|) && Find(text[|before|..], m.end) == Some(|block| - |m.end|)
  {
    FindWritten(m, before, block);
    BlockEnd(m, block);
    SliceAfter(before, block, "\n");
  }

  lemma CutWritten(m: Marks, before: string, block: string)
    requires |block| >= |m.end|
    requires var text := before + (block + "\n");
             Find(text, m.begin) == Some(|before|) && Find(text[|before|..], m.end) == Some(|block| - |m.end|)
    ensures RemoveBlock(m, before + (block + "\n")) == before + "\n"
  {
    SliceAfter(before, block, "\n");
    CutWhole(m, before + (block + "\n"), |before|, |block|);
  }

  lemma CutWhole(m: Marks, text: string, p: nat, n: nat)
    requires p + n <= |text| && n >= |m.end|
    requires Find(text, m.begin) == Some(p) && Find(text[p..], m.end) == Some(n - |m.end|)
    ensures RemoveBlock(m, text) == text[..p] + text[p + n..]
  {
    CutOut(m, text, p, n - |m.end|);
  }

  lemma SliceAfter(a: string, b: string, c: string)
    ensures var s := a + (b + c); s[..|a|] == a && s[|a|..] == b + c && s[|a| + |b|..] == c
  {
  }

  lemma TrimEndOver(s: string, blanks: string)
    requires (s == "" || !IsSpace(s[|s| - 1])) && forall c | c in blanks :: IsSpace(c)
    ensures TrimEnd(s + blanks) == s
  {
    if blanks == "" {
      assert s + blanks == s;
    } else {
      var t := s + blanks;
      assert t[..|t| - 1] == s + blanks[..|blanks| - 1];
      TrimEndOver(s, blanks[..|blanks| - 1]);
    }
  }

  /** The text a replacement writes, around what it keeps. */
  function Written(kept: string, block: string): string {
    (if kept == "" then "" else kept + "\n\n") + (block + "\n")
  }

  lemma ReplaceWrites(m: Marks, text: string, block: string)
    ensures ReplaceBlock(m, text, block) == Written(Rest(m, text), block)
  {
    var kept := Rest(m, text);
    assert kept + "\n\n" + block + "\n" == (kept + "\n\n") + (block + "\n");
  }

  /** With no begin mark in what is kept, the next run keeps the same text. */
  lemma CleanRestIsKept(m: Marks, kept: string, block: string)
    requires GoodMarks(m) && IsBlock(m, block) && Find(kept, m.begin).None? && TrimEnd(kept) == kept
    ensures Rest(m, Written(kept, block)) == kept
  {
    if kept == "" {
      RemoveWritten(m, "", block);
      assert "" + (block + "\n") == block + "\n" && "" + "\n" == "\n";
      TrimEndOver("", "\n");
    } else {
      var before := kept + "\n\n";
      NothingInBlankLines(m, kept);
      RemoveWritten(m, before, block);
      assert before + "\n" == kept + "\n\n\n";
      TrimEndOver(kept, "\n\n\n");
    }
  }

  lemma NothingInBlankLines(m: Marks, kept: string)
    requires GoodMarks(m) && Find(kept, m.begin).None?
    ensures Find(kept + "\n\n", m.begin).None?
  {
    FindMeans(kept, m.begin);
    forall k: nat ensures !At(kept + "\n\n", m.begin, k) {
      NoStraddle(kept, "\n\n", m.begin, k);
      if k > |kept| {
        AtMeans("\n\n", m.begin, k - |kept|);
      }
    }
    FindsNothing(kept + "\n\n", m.begin);
  }

  /** What is written after the kept text: a line break first, the end mark once, and a last line break. */
  predicate IsTail(m: Marks, tail: string) {
    && |tail| > |m.end| + 1 && tail[0] == '\n' && tail[|tail| - 1] == '\n' && !IsSpace(tail[|tail| - 2])
    && Find(tail, m.end) == Some(|tail| - 1 - |m.end|)
  }

  lemma TrimTail(m: Marks, a: string, tail: string)
    requires IsTail(m, tail)
    ensures TrimEnd(a + tail) == a + tail[..|tail| - 1]
  {
    var s := a + tail;
    assert s[..|s| - 1] == a + tail[..|tail| - 1];
  }

  lemma FindEitherSide(m: Marks, x: string, tail: string)
    requires GoodMarks(m) && IsTail(m, tail)
    ensures Find(x + tail, m.end) ==
              if Find(x, m.end).Some? then Find(x, m.end) else Some(|x| + |tail| - 1 - |m.end|)
  {
    if Find(x, m.end).Some? {
      FindInFirst(x, tail, m.end);
    } else {
      FindInSecond(x, tail, m.end);
    }
  }

  /** The end mark that ends `n` characters does not begin before the tail, nor end inside it. */
  lemma NotSplit(m: Marks, y: string, tail: string, n: nat)
    requires GoodMarks(m) && IsTail(m, tail) && n == |tail| - 1 && 0 < |y| < n
    ensures !At(y + tail[..n], m.end, n - |m.end|)
  {
    var w, k := tail[..n], n - |m.end|;
    NoStraddle(y, w, m.end, k);
    AtMeans(y, m.end, k);
    if k > |y| {
      FindMeans(tail, m.end);
      AtMeans(w, m.end, k - |y|);
      assert w[k - |y|..k - |y| + |m.end|] == tail[k - |y|..k - |y| + |m.end|];
      SameThere(w, tail, m.end, k - |y|, k - |y|);
    }
  }

  /** No text that opens a line is what follows its own first end mark with such a piece put after. */
  lemma {:induction false} NoPeriod(m: Marks, x: string, tail: string, n: nat)
    requires GoodMarks(m) && IsTail(m, tail)
    requires |m.end| <= n <= |x| && x[0] != '\n' && At(x, m.end, n - |m.end|)
    ensures x != x[n..] + tail[..|tail| - 1]
    decreases |x|
  {
    var y, w := x[n..], tail[..|tail| - 1];
    if x == y + w {
      if |y| < n {
        NotSplit(m, y, tail, n);
      } else {
        assert y[..n] == x[..n] && y[0] == x[..n][0];
        assert y[n - |m.end|..n - |m.end| + |m.end|] == y[..n][n - |m.end|..] == x[..n][n - |m.end|..];
        SameThere(x, y, m.end, n - |m.end|, n - |m.end|);
        assert y[n..] + w == (y + w)[n..];
        NoPeriod(m, y, tail, n);
      }
    }
  }

  /** The cut ends inside the kept text. */
  lemma CutInside(m: Marks, kept: string, tail: string, p: nat, q: nat)
    requires GoodMarks(m) && IsTail(m, tail) && At(kept, m.begin, p) && At(kept[p..], m.end, q)
    requires Find(kept + tail, m.begin) == Some(p) && Find((kept + tail)[p..], m.end) == Some(q)
    ensures TrimEnd(RemoveBlock(m, kept + tail)) != kept
  {
    AtMeans(kept[p..], m.end, q);
    NoPeriodAt(m, kept, tail, p, q);
    CutInsideChanges(m, kept, tail, p, q);
  }

  lemma NoPeriodAt(m: Marks, kept: string, tail: string, p: nat, q: nat)
    requires GoodMarks(m) && IsTail(m, tail) && At(kept, m.begin, p)
    requires p + q + |m.end| <= |kept| && At(kept[p..], m.end, q)
    ensures kept[p..] != kept[p..][q + |m.end|..] + tail[..|tail| - 1]
  {
    OpensALine(m, kept, p);
    NoPeriod(m, kept[p..], tail, q + |m.end|);
  }

  lemma CutInsideChanges(m: Marks, kept: string, tail: string, p: nat, q: nat)
    requires IsTail(m, tail) && p + q + |m.end| <= |kept|
    requires Find(kept + tail, m.begin) == Some(p) && Find((kept + tail)[p..], m.end) == Some(q)
    requires kept[p..] != kept[p..][q + |m.end|..] + tail[..|tail| - 1]
    ensures TrimEnd(RemoveBlock(m, kept + tail)) != kept
  {
    CutInsideLeaves(m, kept, tail, p, q);
    DropBoth(kept, p, q + |m.end|, tail[..|tail| - 1]);
  }

  lemma CutInsideLeaves(m: Marks, kept: string, tail: string, p: nat, q: nat)
    requires IsTail(m, tail) && p + q + |m.end| <= |kept|
    requires Find(kept + tail, m.begin) == Some(p) && Find((kept + tail)[p..], m.end) == Some(q)
    ensures TrimEnd(RemoveBlock(m, kept + tail)) == kept[..p] + kept[p + q + |m.end|..] + tail[..|tail| - 1]
  {
    RemoveInside(m, kept, tail, p, q);
    TrimTail(m, kept[..p] + kept[p + q + |m.end|..], tail);
  }

  lemma RemoveInside(m: Marks, kept: string, tail: string, p: nat, q: nat)
    requires p + q + |m.end| <= |kept|
    requires Find(kept + tail, m.begin) == Some(p) && Find((kept + tail)[p..], m.end) == Some(q)
    ensures RemoveBlock(m, kept + tail) == kept[..p] + kept[p + q + |m.end|..] + tail
  {
    CutOut(m, kept + tail, p, q);
    SlicesOver(kept, tail, p, p + q + |m.end|);
  }

  lemma SlicesOver(a: string, b: string, p: nat, k: nat)
    requires p <= k <= |a|
    ensures (a + b)[..p] + (a + b)[k..] == a[..p] + a[k..] + b
  {
    SliceOver(a, b, p, k);
  }

  /** Dropping the first `p` characters of both sides. */
  lemma DropBoth(s: string, p: nat, n: nat, w: string)
    requires p + n <= |s|
    ensures s[..p] + s[p + n..] + w == s ==> s[p..] == s[p..][n..] + w
  {
    var t := s[..p] + s[p + n..] + w;
    assert t[p..] == s[p + n..] + w && s[p..][n..] == s[p + n..];
  }

  lemma OpensALine(m: Marks, s: string, p: nat)
    requires GoodMarks(m) && At(s, m.begin, p)
    ensures s[p..] != "" && s[p..][0] != '\n'
  {
    AtMeans(s, m.begin, p);
    if s[p] == '\n' {
      NotOverNewline(s, m.begin, p, p);
    }
  }

  /** The cut runs through to the new end mark. */
  lemma CutThrough(m: Marks, kept: string, tail: string, p: nat)
    requires |tail| > |m.end| && tail[|tail| - 1] == '\n' && p <= |kept|
    requires Find(kept + tail, m.begin) == Some(p)
    requires Find((kept + tail)[p..], m.end) == Some(|kept| - p + |tail| - 1 - |m.end|)
    ensures RemoveBlock(m, kept + tail) == kept[..p] + "\n"
  {
    CutWhole(m, kept + tail, p, |kept| - p + |tail| - 1);
    FirstAndLast(kept, tail, p);
  }

  lemma FirstAndLast(a: string, b: string, p: nat)
    requires p <= |a| && b != "" && b[|b| - 1] == '\n'
    ensures (a + b)[..p] == a[..p] && (a + b)[|a + b| - 1..] == "\n"
  {
  }

  /** With one, the next run starts its cut there, and what it keeps is something else. */
  lemma StrayMarkIsCut(m: Marks, kept: string, tail: string, p: nat)
    requires GoodMarks(m) && IsTail(m, tail) && Find(kept, m.begin) == Some(p)
    ensures TrimEnd(RemoveBlock(m, kept + tail)) != kept
    ensures Find(kept[p..], m.end).None? ==> TrimEnd(RemoveBlock(m, kept + tail)) == TrimEnd(kept[..p])
  {
    FindInFirst(kept, tail, m.begin);
    FindMeans(kept, m.begin);
    FindMeans(kept[p..], m.end);
    SliceOver(kept, tail, p, p);
    FindEitherSide(m, kept[p..], tail);
    match Find(kept[p..], m.end)
    case Some(q) => CutInside(m, kept, tail, p, q);
    case None =>
      AtMeans(kept, m.begin, p);
      CutThrough(m, kept, tail, p);
      TrimEndLine(kept[..p]);
  }

  lemma TrimEndLine(s: string)
    ensures TrimEnd(s + "\n") == TrimEnd(s)
  {
    assert (s + "\n")[..|s|] == s;
  }

  lemma {:induction false} FindAfterBlank(s: string, pat: string)
    requires pat != "" && '\n' !in pat
    ensures Find("\n" + s, pat) == match Find(s, pat) case None => None case Some(k) => Some(k + 1)
  {
    var t := "\n" + s;
    assert t[0..] == t && t[1..] == s;
    NotOverNewline(t, pat, 0, 0);
  }

  lemma BlockTail(m: Marks, block: string)
    requires GoodMarks(m) && IsBlock(m, block)
    ensures IsTail(m, "\n" + ("\n" + (block + "\n")))
  {
    BlockEnd(m, block);
    var s := block + "\n";
    FindAfterBlank(s, m.end);
    FindAfterBlank("\n" + s, m.end);
    FindMeans(block, m.end);
    AtMeans(block, m.end, |block| - |m.end|);
    assert block[|block| - |m.end|..|block| - |m.end| + |m.end|][|m.end| - 1] == block[|block| - 1];
  }

  /** The same, for any block. */
  lemma SecondWriteChangesNothing(m: Marks, kept: string, block: string)
    requires GoodMarks(m) && IsBlock(m, block) && TrimEnd(kept) == kept
    ensures Rest(m, Written(kept, block)) == kept <==> Find(kept, m.begin).None?
  {
    if Find(kept, m.begin).None? {
      CleanRestIsKept(m, kept, block);
    } else {
      WrittenTail(kept, block);
      BlockTail(m, block);
      StrayMarkIsCut(m, kept, "\n" + ("\n" + (block + "\n")), Find(kept, m.begin).value);
      assert kept != "";
    }
  }

  lemma WrittenTail(kept: string, block: string)
    ensures kept != "" ==> Written(kept, block) == kept + ("\n" + ("\n" + (block + "\n")))
  {
  }

  /** Writing the block is idempotent exactly when no stray begin mark stands in the text it keeps. */
  lemma ReplaceIsIdempotent(m: Marks, text: string, inner: string)
    requires GoodMarks(m) && Find(inner, m.end).None?
    ensures var block := Block(m, inner); var once := ReplaceBlock(m, text, block);
            ReplaceBlock(m, once, block) == once <==> Find(Rest(m, text), m.begin).None?
  {
    BlockIsBlock(m, inner);
    ReplaceIsIdempotentFor(m, text, Block(m, inner));
  }

  lemma ReplaceIsIdempotentFor(m: Marks, text: string, block: string)
    requires GoodMarks(m) && IsBlock(m, block)
    ensures var once := ReplaceBlock(m, text, block);
            ReplaceBlock(m, once, block) == once <==> Find(Rest(m, text), m.begin).None?
  {
    var kept := Rest(m, text);
    var once := Written(kept, block);
    ReplaceWrites(m, text, block);
    ReplaceWrites(m, once, block);
    TrimEndTwice(RemoveBlock(m, text));
    SecondWriteChangesNothing(m, kept, block);
    if Written(Rest(m, once), block) == once {
      WrittenIsInjective(kept, Rest(m, once), block);
    }
  }

  /** Then the text around the block survives every further run, whatever is written into it. */
  lemma KeptTextSurvives(m: Marks, text: string, inner: string, next: string)
    requires GoodMarks(m) && Find(inner, m.end).None? && Find(Rest(m, text), m.begin).None?
    ensures var once := ReplaceBlock(m, text, Block(m, inner));
            && Rest(m, once) == Rest(m, text)
            && ReplaceBlock(m, once, Block(m, next)) == ReplaceBlock(m, text, Block(m, next))
  {
    var block := Block(m, inner);
    BlockIsBlock(m, inner);
    ReplaceWrites(m, text, block);
    TrimEndTwice(RemoveBlock(m, text));
    CleanRestIsKept(m, Rest(m, text), block);
    var once := ReplaceBlock(m, text, block);
    ReplaceWrites(m, once, Block(m, next));
    ReplaceWrites(m, text, Block(m, next));
  }

  /** With a begin mark in the kept text that no end mark follows, the second run drops all of that
      text from the mark on. */
  lemma StrayMarkLosesText(m: Marks, text: string, inner: string, p: nat)
    requires GoodMarks(m) && Find(inner, m.end).None?
    requires Find(Rest(m, text), m.begin) == Some(p) && Find(Rest(m, text)[p..], m.end).None?
    ensures Rest(m, ReplaceBlock(m, text, Block(m, inner))) == TrimEnd(Rest(m, text)[..p])
  {
    var kept, block := Rest(m, text), Block(m, inner);
    BlockIsBlock(m, inner);
    BlockTail(m, block);
    ReplaceWrites(m, text, block);
    WrittenTail(kept, block);
    StrayMarkIsCut(m, kept, "\n" + ("\n" + (block + "\n")), p);
  }

  lemma TrimEndTwice(s: string)
    ensures TrimEnd(TrimEnd(s)) == TrimEnd(s)
  {
  }

  lemma WrittenIsInjective(a: string, b: string, block: string)
    requires Written(a, block) == Written(b, block)
    ensures a == b
  {
    var x, y := Written(a, block), Written(b, block);
    var n := |block| + 1;
    assert x[..|x| - n] == (if a == "" then "" else a + "\n\n");
    assert y[..|y| - n] == (if b == "" then "" else b + "\n\n");
    if a != "" && b != "" {
      assert (a + "\n\n")[..|a|] == a && (b + "\n\n")[..|b|] == b;
    }
  }
}

/**
 Patching: words with a placeholder, the two fixup tables, and what they turn the words into.
 */
module Patches {
  import opened Memory
  import opened Isa
  import opened Machine
  import opened CodeSpec

  const MAXLAB: nat := 2048

  /** A label is an index into the table of label offsets. */
  type Lab = l: int | 0 <= l < MAXLAB witness 0

  datatype Kind = KB | KCbz | KCbnz | KBcond

  /** A branch at `site` that must go to label `lab`. */
  datatype Fix = Fix(site: nat, lab: Lab, kind: Kind, cond: nat)

  /** A call of function number `fn`, whose address is loaded by the four words at `site`. */
  datatype CallFix = CallFix(site: nat, fn: nat)

  function BranchOf(kind: Kind, cond: nat, delta: int): Instr {
    match kind
    case KB => B(delta)
    case KCbz => Cbz(delta)
    case KCbnz => Cbnz(delta)
    case KBcond => Bcond(cond, delta)
  }

  /** The word for an instruction; branch distances are masked to their field as the patcher does. */
  function WordOf(i: Instr): Word32 {
    match i
    case B(d) => 0x14000000 + d % 0x4000000
    case Cbz(d) => 0xB4000000 + d % 0x80000 * 0x20
    case Cbnz(d) => 0xB5000000 + d % 0x80000 * 0x20
    case Bcond(c, d) => if c < 16 then 0x54000000 + d % 0x80000 * 0x20 + c else 0
    case _ => if Encodable(i) then Encode(i) else 0
  }

  function Words(c: Code): (w: seq<Word32>)
    ensures |w| == |c|
    ensures forall i :: 0 <= i < |c| ==> w[i] == WordOf(c[i])
  {
    seq(|c|, i requires 0 <= i < |c| => WordOf(c[i]))
  }

  lemma WordsCat(a: Code, b: Code)
    ensures Words(a + b) == Words(a) + Words(b)
  {
  }

  lemma WordsSnoc(c: Code, i: Instr)
    ensures Words(c + [i]) == Words(c) + [WordOf(i)] && Words([i]) == [WordOf(i)]
  {
    hide WordOf;
  }

  /** In range, the masked word is the encoding. */
  lemma WordsEncode(c: Code)
    requires forall i :: 0 <= i < |c| ==> Encodable(c[i])
    ensures Encodes(Words(c), c)
  {
  }

  // ---------- patching as a function ----------

  function LabelAt(goal: seq<int>, l: int): int {
    if 0 <= l < |goal| then goal[l] else 0
  }

  function PatchWord(f: Fix, goal: seq<int>): Word32 {
    WordOf(BranchOf(f.kind, f.cond, LabelAt(goal, f.lab) - f.site))
  }

  function PutWord(code: seq<Word32>, site: nat, w: Word32): (r: seq<Word32>)
    ensures |r| == |code|
  {
    if site < |code| then code[site := w] else code
  }

  /** The first `n` fixups applied. */
  function ApplyFixes(code: seq<Word32>, fixes: seq<Fix>, goal: seq<int>, n: nat): (r: seq<Word32>)
    requires n <= |fixes|
    ensures |r| == |code|
  {
    if n == 0 then code
    else PutWord(ApplyFixes(code, fixes, goal, n - 1), fixes[n - 1].site, PatchWord(fixes[n - 1], goal))
  }

  function EntryFor(entry: seq<U64>, fn: nat): U64 {
    if fn < |entry| then entry[fn] else 0
  }

  function Put4(code: seq<Word32>, site: nat, c: seq<Word32>): (r: seq<Word32>)
    requires |c| == 4
    ensures |r| == |code|
  {
    PutWord(PutWord(PutWord(PutWord(code, site, c[0]), site + 1, c[1]), site + 2, c[2]), site + 3, c[3])
  }

  function ApplyCalls(code: seq<Word32>, calls: seq<CallFix>, entry: seq<U64>, n: nat): (r: seq<Word32>)
    requires n <= |calls|
    ensures |r| == |code|
  {
    if n == 0 then code
    else Put4(ApplyCalls(code, calls, entry, n - 1), calls[n - 1].site, Words(LoadImm(9, EntryFor(entry, calls[n - 1].fn))))
  }

  lemma {:induction false} FixesAppend(code: seq<Word32>, w: Word32, fixes: seq<Fix>, goal: seq<int>, n: nat)
    requires n <= |fixes| && forall f :: f in fixes ==> f.site < |code|
    ensures ApplyFixes(code + [w], fixes, goal, n) == ApplyFixes(code, fixes, goal, n) + [w]
    decreases n
  {
    if n > 0 {
      FixesAppend(code, w, fixes, goal, n - 1);
      assert fixes[n - 1] in fixes;
    }
  }

  /** Labels handed out later do not disturb fixups already recorded. */
  lemma {:induction false} FixesGoal(code: seq<Word32>, fixes: seq<Fix>, goal: seq<int>, goal': seq<int>, n: nat)
    requires n <= |fixes|
    requires forall f :: f in fixes ==> LabelAt(goal, f.lab) == LabelAt(goal', f.lab)
    ensures ApplyFixes(code, fixes, goal, n) == ApplyFixes(code, fixes, goal', n)
    decreases n
  {
    if n > 0 {
      FixesGoal(code, fixes, goal, goal', n - 1);
      assert fixes[n - 1] in fixes;
    }
  }

  lemma {:induction false} FixesMore(code: seq<Word32>, fixes: seq<Fix>, f: Fix, goal: seq<int>, n: nat)
    requires n <= |fixes|
    ensures ApplyFixes(code, fixes + [f], goal, n) == ApplyFixes(code, fixes, goal, n)
    decreases n
  {
    if n > 0 {
      FixesMore(code, fixes, f, goal, n - 1);
    }
  }

  lemma {:induction false} CallsAppend(code: seq<Word32>, w: Word32, calls: seq<CallFix>, entry: seq<U64>, n: nat)
    requires n <= |calls| && forall c :: c in calls ==> c.site + 4 <= |code|
    ensures ApplyCalls(code + [w], calls, entry, n) == ApplyCalls(code, calls, entry, n) + [w]
    decreases n
  {
    hide Words, LoadImm, Put4;
    if n > 0 {
      CallsAppend(code, w, calls, entry, n - 1);
      assert calls[n - 1] in calls;
      var c := Words(LoadImm(9, EntryFor(entry, calls[n - 1].fn)));
      Put4Append(ApplyCalls(code, calls, entry, n - 1), w, calls[n - 1].site, c);
    }
  }

  lemma Put4Append(code: seq<Word32>, w: Word32, site: nat, c: seq<Word32>)
    requires |c| == 4 && site + 4 <= |code|
    ensures Put4(code + [w], site, c) == Put4(code, site, c) + [w]
  {
  }

  lemma {:induction false} CallsMore(code: seq<Word32>, calls: seq<CallFix>, c: CallFix, entry: seq<U64>, n: nat)
    requires n <= |calls|
    ensures ApplyCalls(code, calls + [c], entry, n) == ApplyCalls(code, calls, entry, n)
    decreases n
  {
    hide Put4, Words, LoadImm;
    if n > 0 {
      CallsMore(code, calls, c, entry, n - 1);
    }
  }

  /** Every fixup lies in the first `size` words and names one of the first `labels` labels. */
  predicate InRange(fixes: seq<Fix>, calls: seq<CallFix>, size: nat, labels: nat) {
    && (forall f :: f in fixes ==> f.site < size && f.lab < labels)
    && (forall c :: c in calls ==> c.site + 4 <= size)
  }

  lemma InRangeMore(fixes: seq<Fix>, calls: seq<CallFix>, size: nat, labels: nat, size': nat, labels': nat)
    requires InRange(fixes, calls, size, labels) && size <= size' && labels <= labels'
    ensures InRange(fixes, calls, size', labels')
  {
  }

  lemma InRangeFix(fixes: seq<Fix>, f: Fix, calls: seq<CallFix>, labels: nat)
    requires InRange(fixes, calls, f.site, labels) && f.lab < labels
    ensures InRange(fixes + [f], calls, f.site + 1, labels)
  {
  }

  lemma InRangeCall(fixes: seq<Fix>, calls: seq<CallFix>, c: CallFix, labels: nat)
    requires InRange(fixes, calls, c.site, labels)
    ensures InRange(fixes, calls + [c], c.site + 4, labels)
  {
  }

  /** Everything a buffer will say once both tables have been applied. */
  function Patched(code: seq<Word32>, fixes: seq<Fix>, goal: seq<int>, calls: seq<CallFix>, entry: seq<U64>): (r: seq<Word32>)
    ensures |r| == |code|
  {
    ApplyCalls(ApplyFixes(code, fixes, goal, |fixes|), calls, entry, |calls|)
  }

  lemma PatchedAppend(code: seq<Word32>, w: Word32, fixes: seq<Fix>, goal: seq<int>, calls: seq<CallFix>, entry: seq<U64>, labels: nat)
    requires InRange(fixes, calls, |code|, labels)
    ensures Patched(code + [w], fixes, goal, calls, entry) == Patched(code, fixes, goal, calls, entry) + [w]
  {
    hide ApplyFixes, ApplyCalls;
    FixesAppend(code, w, fixes, goal, |fixes|);
    CallsAppend(ApplyFixes(code, fixes, goal, |fixes|), w, calls, entry, |calls|);
  }

  lemma LastFix(code: seq<Word32>, w: Word32, fixes: seq<Fix>, f: Fix, goal: seq<int>)
    requires forall f :: f in fixes ==> f.site < |code|
    requires f.site == |code|
    ensures ApplyFixes(code + [w], fixes + [f], goal, |fixes| + 1) == ApplyFixes(code, fixes, goal, |fixes|) + [PatchWord(f, goal)]
  {
    hide PatchWord;
    FixesAppend(code, w, fixes, goal, |fixes|);
    FixesMore(code + [w], fixes, f, goal, |fixes|);
  }

  lemma PatchedBranch(code: seq<Word32>, w: Word32, fixes: seq<Fix>, f: Fix, goal: seq<int>, calls: seq<CallFix>, entry: seq<U64>, labels: nat)
    requires InRange(fixes, calls, |code|, labels)
    requires f.site == |code|
    ensures Patched(code + [w], fixes + [f], goal, calls, entry) == Patched(code, fixes, goal, calls, entry) + [PatchWord(f, goal)]
  {
    hide ApplyFixes, ApplyCalls, PatchWord;
    LastFix(code, w, fixes, f, goal);
    CallsAppend(ApplyFixes(code, fixes, goal, |fixes|), PatchWord(f, goal), calls, entry, |calls|);
  }

  lemma PatchedCall(code: seq<Word32>, fixes: seq<Fix>, goal: seq<int>, calls: seq<CallFix>, c: CallFix, entry: seq<U64>)
    requires c.site + 4 == |code|
    ensures Patched(code, fixes, goal, calls + [c], entry)
            == Patched(code, fixes, goal, calls, entry)[..c.site] + Words(LoadImm(9, EntryFor(entry, c.fn)))
  {
    hide ApplyFixes, Words, LoadImm;
    CallsMore(ApplyFixes(code, fixes, goal, |fixes|), calls, c, entry, |calls|);
  }

  lemma PatchedGoal(code: seq<Word32>, fixes: seq<Fix>, goal: seq<int>, goal': seq<int>, calls: seq<CallFix>, entry: seq<U64>)
    requires forall f :: f in fixes ==> f.lab < |goal|
    requires goal <= goal'
    ensures Patched(code, fixes, goal, calls, entry) == Patched(code, fixes, goal', calls, entry)
  {
    hide ApplyFixes, ApplyCalls;
    FixesGoal(code, fixes, goal, goal', |fixes|);
  }

  // ---------- what a dropped fixup leaves behind ----------

  predicate IsBranch(i: Instr) {
    i.B? || i.Cbz? || i.Cbnz? || i.Bcond?
  }

  /** The placeholder of a branch: the same kind with no condition and no distance. */
  function Still(i: Instr): Instr
    requires IsBranch(i)
  {
    match i
    case B(_) => B(0)
    case Cbz(_) => Cbz(0)
    case Cbnz(_) => Cbnz(0)
    case Bcond(_, _) => Bcond(0, 0)
  }

  /** `w` is still the placeholder of a branch, or of the load of a function's address, `c`. */
  ghost predicate Placeholder(w: seq<Word32>, c: Code, entry: seq<U64>) {
    || (|c| == 1 && IsBranch(c[0]) && w == [WordOf(Still(c[0]))])
    || exists fn :: 0 <= fn < |entry| && c == LoadImm(9, entry[fn]) && w == Words(LoadImm(9, 0))
  }

  /** Words `lo` up to `hi` of the buffer. */
  datatype Span = Span(lo: nat, hi: nat)

  predicate Misses(x: Span, fixes: seq<Fix>, calls: seq<CallFix>) {
    && (forall f :: f in fixes ==> f.site < x.lo || x.hi <= f.site)
    && (forall c :: c in calls ==> c.site + 4 <= x.lo || x.hi <= c.site)
  }

  /** No fixup will ever touch the placeholder at `x`. */
  ghost predicate Lost(x: Span, code: seq<Word32>, spec: Code, fixes: seq<Fix>, calls: seq<CallFix>, entry: seq<U64>) {
    && x.lo < x.hi <= |code| == |spec|
    && Placeholder(code[x.lo..x.hi], spec[x.lo..x.hi], entry)
    && Misses(x, fixes, calls)
  }

  /** Patching a recorded branch leaves the placeholder alone. */
  lemma LostMisses(x: Span, code: seq<Word32>, spec: Code, fixes: seq<Fix>, calls: seq<CallFix>, entry: seq<U64>, f: Fix, w: Word32)
    requires Lost(x, code, spec, fixes, calls, entry) && f in fixes
    ensures Lost(x, PutWord(code, f.site, w), spec, fixes, calls, entry)
  {
    hide Placeholder;
    assert PutWord(code, f.site, w)[x.lo..x.hi] == code[x.lo..x.hi];
  }

  lemma LostResolved(x: Span, code: seq<Word32>, spec: Code, fixes: seq<Fix>, calls: seq<CallFix>, entry: seq<U64>)
    requires Lost(x, code, spec, fixes, calls, entry)
    ensures Lost(x, code, spec, [], calls, entry)
  {
    hide Placeholder;
  }

  /** One of the first `n` fixups is for a word past the end. */
  predicate Beyond(fixes: seq<Fix>, n: nat, cap: nat)
    requires n <= |fixes|
  {
    n > 0 && (fixes[n - 1].site >= cap || Beyond(fixes, n - 1, cap))
  }

  lemma {:induction false} BeyondIs(fixes: seq<Fix>, n: nat, cap: nat)
    requires n <= |fixes|
    ensures Beyond(fixes, n, cap) <==> exists f :: f in fixes[..n] && f.site >= cap
  {
    if n > 0 {
      BeyondIs(fixes, n - 1, cap);
      assert fixes[..n] == fixes[..n - 1] + [fixes[n - 1]];
    }
  }

  lemma PatchedNone(code: seq<Word32>, fixes: seq<Fix>, goal: seq<int>, calls: seq<CallFix>, entry: seq<U64>)
    ensures Patched(ApplyFixes(code, fixes, goal, |fixes|), [], goal, calls, entry) == Patched(code, fixes, goal, calls, entry)
  {
    hide ApplyCalls;
  }

  lemma FixesStart(code: seq<Word32>, fixes: seq<Fix>, goal: seq<int>)
    ensures ApplyFixes(code, fixes, goal, 0) == code
  {
  }

  lemma FixesNext(code: seq<Word32>, fixes: seq<Fix>, goal: seq<int>, i: nat)
    requires i < |fixes|
    ensures ApplyFixes(code, fixes, goal, i + 1) == PutWord(ApplyFixes(code, fixes, goal, i), fixes[i].site, PatchWord(fixes[i], goal))
  {
    hide PutWord, PatchWord;
  }

  lemma NoFixes(fixes: seq<Fix>, calls: seq<CallFix>, size: nat, labels: nat)
    requires InRange(fixes, calls, size, labels)
    ensures InRange([], calls, size, labels) && forall f :: f in fixes ==> f.lab < labels
  {
  }

  lemma LostAppend(x: Span, code: seq<Word32>, w: seq<Word32>, spec: Code, c: Code, fixes: seq<Fix>, calls: seq<CallFix>, entry: seq<U64>)
    requires Lost(x, code, spec, fixes, calls, entry) && |w| == |c|
    ensures Lost(x, code + w, spec + c, fixes, calls, entry)
  {
    hide Placeholder;
    assert (code + w)[x.lo..x.hi] == code[x.lo..x.hi] && (spec + c)[x.lo..x.hi] == spec[x.lo..x.hi];
  }

  lemma {:induction false} FixesMiss(x: Span, code: seq<Word32>, fixes: seq<Fix>, goal: seq<int>, n: nat)
    requires n <= |fixes| && x.lo <= x.hi <= |code| && Misses(x, fixes, [])
    ensures ApplyFixes(code, fixes, goal, n)[x.lo..x.hi] == code[x.lo..x.hi]
    decreases n
  {
    hide PatchWord;
    if n > 0 {
      FixesMiss(x, code, fixes, goal, n - 1);
      assert fixes[n - 1] in fixes;
    }
  }

  lemma {:induction false} CallsMiss(x: Span, code: seq<Word32>, calls: seq<CallFix>, entry: seq<U64>, n: nat)
    requires n <= |calls| && x.lo <= x.hi <= |code| && Misses(x, [], calls)
    ensures ApplyCalls(code, calls, entry, n)[x.lo..x.hi] == code[x.lo..x.hi]
    decreases n
  {
    hide Words, LoadImm, Put4;
    if n > 0 {
      CallsMiss(x, code, calls, entry, n - 1);
      assert calls[n - 1] in calls;
      CallMisses(x, ApplyCalls(code, calls, entry, n - 1), calls[n - 1].site, Words(LoadImm(9, EntryFor(entry, calls[n - 1].fn))));
    }
  }

  lemma CallMisses(x: Span, code: seq<Word32>, site: nat, w: seq<Word32>)
    requires x.lo <= x.hi <= |code| && |w| == 4 && (site + 4 <= x.lo || x.hi <= site)
    ensures Put4(code, site, w)[x.lo..x.hi] == code[x.lo..x.hi]
  {
  }

  /** A branch whose fixup was dropped. */
  lemma BranchLost(code: seq<Word32>, w: Word32, spec: Code, i: Instr, kind: Kind, cond: nat, delta: int, fixes: seq<Fix>, calls: seq<CallFix>, entry: seq<U64>, labels: nat)
    requires |code| == |spec| && w == WordOf(BranchOf(kind, 0, 0)) && i == BranchOf(kind, cond, delta)
    requires InRange(fixes, calls, |code|, labels)
    ensures Lost(Span(|code|, |code| + 1), code + [w], spec + [i], fixes, calls, entry)
  {
    hide WordOf;
    assert (code + [w])[|code|..|code| + 1] == [w] && (spec + [i])[|code|..|code| + 1] == [i];
  }

  /** A call whose fixup was dropped. */
  lemma CallLost(code: seq<Word32>, spec: Code, fn: nat, fixes: seq<Fix>, calls: seq<CallFix>, entry: seq<U64>, labels: nat)
    requires |code| == |spec| && fn < |entry|
    requires InRange(fixes, calls, |code|, labels)
    ensures Lost(Span(|code|, |code| + 4), code + Words(LoadImm(9, 0)), spec + LoadImm(9, entry[fn]), fixes, calls, entry)
  {
    hide Words, LoadImm;
    var w, c, n := Words(LoadImm(9, 0)), LoadImm(9, entry[fn]), |code|;
    assert (code + w)[n..n + 4] == w && (spec + c)[n..n + 4] == c;
  }

  /** Later branches do not repair an earlier loss, whether their own fixup is recorded or not. */
  lemma LostBranch(x: Span, code: seq<Word32>, w: Word32, spec: Code, i: Instr, fixes: seq<Fix>, f: Fix, calls: seq<CallFix>, entry: seq<U64>)
    requires Lost(x, code, spec, fixes, calls, entry) && f.site == |code|
    ensures Lost(x, code + [w], spec + [i], fixes, calls, entry) && Lost(x, code + [w], spec + [i], fixes + [f], calls, entry)
  {
    hide Placeholder;
    LostAppend(x, code, [w], spec, [i], fixes, calls, entry);
  }

  /** Nor do later calls. */
  lemma LostLink(x: Span, code: seq<Word32>, spec: Code, load: Code, fixes: seq<Fix>, calls: seq<CallFix>, c: CallFix, entry: seq<U64>)
    requires Lost(x, code, spec, fixes, calls, entry) && c.site == |code| && |load| == 4
    ensures var w := Words(LoadImm(9, 0));
            Lost(x, code + w, spec + load, fixes, calls, entry) && Lost(x, code + w, spec + load, fixes, calls + [c], entry)
  {
    hide Placeholder, Words, LoadImm;
    LostAppend(x, code, Words(LoadImm(9, 0)), spec, load, fixes, calls, entry);
  }

  lemma FourWords(code: seq<Word32>, spec: Code, a: Instr, b: Instr, c: Instr, d: Instr, r: nat, v: U64)
    requires LoadImm(r, v) == [a, b, c, d]
    ensures code + Words([a]) + Words([b]) + Words([c]) + Words([d]) == code + Words(LoadImm(r, v))
    ensures spec + [a] + [b] + [c] + [d] == spec + LoadImm(r, v)
  {
    hide LoadImm, WordOf;
  }
}

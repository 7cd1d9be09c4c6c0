/** The sliding replay window of a session, in the style of section 3.4.3 of RFC 4303.

    `Window` is the simple form: the highest number and 2048 flags, flag `k` standing for
    `highest - k`. `CheckReplay` is the fast form: 32 words shifted in place. The theorems at
    the end relate both to the set of numbers accepted so far. */
module Replay {
  import opened Words

  const WINDOW_WORDS: nat := 32
  const WINDOW_BITS: nat := 2048

  datatype Window = Window(highest: uint64, flags: seq<bool>) {
    ghost predicate Valid() {
      |flags| == WINDOW_BITS
    }
  }

  function Fresh(): Window {
    Window(0, Zeros(WINDOW_BITS))
  }

  /** The flags moved `d` places away from the newest one. */
  function Shifted(flags: seq<bool>, d: nat): (r: seq<bool>)
    requires |flags| == WINDOW_BITS
    ensures |r| == WINDOW_BITS
  {
    if d >= WINDOW_BITS then Zeros(WINDOW_BITS) else Zeros(d) + flags[..WINDOW_BITS - d]
  }

  /** What one call decides: the new window, and whether `s` is accepted. */
  function Check(w: Window, s: uint64): (r: (Window, bool))
    requires w.Valid()
    ensures r.0.Valid()
  {
    if s > w.highest then
      (Window(s, Shifted(w.flags, s - w.highest)[0 := true]), true)
    else if w.highest - s >= WINDOW_BITS || w.flags[w.highest - s] then
      (w, false)
    else
      (w.(flags := w.flags[w.highest - s := true]), true)
  }

  // ----- the in-place form

  /** The flags held by an array of words: word `i` holds flags `64 * i` to `64 * i + 63`. */
  function Flatten(words: seq<Word64>): (r: seq<bool>)
    ensures |r| == 64 * |words|
  {
    if words == [] then [] else Flatten(words[..|words| - 1]) + words[|words| - 1]
  }

  /** `flags` are the flags of `words`, said digit by digit. */
  ghost predicate Holds(words: seq<Word64>, flags: seq<bool>) {
    && |flags| == 64 * |words|
    && forall i, b :: 0 <= i < |words| && 0 <= b < 64 ==> words[i][b] == flags[64 * i + b]
  }

  lemma {:induction false} FlattenHolds(words: seq<Word64>)
    ensures Holds(words, Flatten(words))
  {
    if words != [] {
      FlattenHolds(words[..|words| - 1]);
    }
  }

  lemma HoldsUnique(words: seq<Word64>, f: seq<bool>, g: seq<bool>)
    requires Holds(words, f) && Holds(words, g)
    ensures f == g
  {
    forall k | 0 <= k < |f|
      ensures f[k] == g[k]
    {
      assert words[k / 64][k % 64] == f[64 * (k / 64) + k % 64];
    }
  }

  /** The word the shift loop stores at index `i`, in terms of the words before the loop. */
  function ShiftedWord(words: seq<Word64>, wn: nat, bn: nat, i: nat): Word64
    requires |words| == WINDOW_WORDS && bn < 64 && i < WINDOW_WORDS
  {
    var lo := if i >= wn then words[i - wn] else Zeros(64);
    var hi := if bn > 0 && i >= wn + 1 then words[i - wn - 1] else Zeros(64);
    if bn > 0 then Or(Shl(lo, bn), Shr(hi, 64 - bn)) else lo
  }

  /** Digit `b` of the word stored at `i`. */
  ghost predicate DigitAfter(words: seq<Word64>, wn: nat, bn: nat, i: nat, b: nat)
    requires |words| == WINDOW_WORDS && bn < 64 && i < WINDOW_WORDS && b < 64
  {
    if b >= bn then i >= wn && words[i - wn][b - bn]
    else i >= wn + 1 && words[i - wn - 1][64 - bn + b]
  }

  lemma ShiftedWordAt(words: seq<Word64>, wn: nat, bn: nat, i: nat, b: nat)
    requires |words| == WINDOW_WORDS && bn < 64 && i < WINDOW_WORDS && b < 64
    ensures ShiftedWord(words, wn, bn, i)[b] == DigitAfter(words, wn, bn, i, b)
  {}

  ghost predicate FlagAfter(flags: seq<bool>, d: nat, k: nat)
    requires k < |flags|
  {
    k >= d && flags[k - d]
  }

  lemma ShiftedAt(flags: seq<bool>, d: nat, k: nat)
    requires |flags| == WINDOW_BITS && k < WINDOW_BITS
    ensures Shifted(flags, d)[k] == FlagAfter(flags, d, k)
  {}

  lemma ShiftedOut(flags: seq<bool>, d: nat)
    requires |flags| == WINDOW_BITS <= d
    ensures Shifted(flags, d) == Zeros(WINDOW_BITS)
  {}

  lemma HoldsAll(words: seq<Word64>, flags: seq<bool>)
    requires Holds(words, flags)
    ensures |flags| == 64 * |words|
  {}

  lemma DigitIsFlag(words: seq<Word64>, flags: seq<bool>, wn: nat, bn: nat, i: nat, b: nat)
    requires |words| == WINDOW_WORDS && bn < 64 && i < WINDOW_WORDS && b < 64
    requires Holds(words, flags)
    ensures DigitAfter(words, wn, bn, i, b) == FlagAfter(flags, 64 * wn + bn, 64 * i + b)
  {}

  /** Storing the shifted words is an exact shift of all 2048 flags. */
  lemma ShiftLoopIsShift(words: seq<Word64>, flags: seq<bool>, wn: nat, bn: nat, after: seq<Word64>)
    requires |words| == |after| == WINDOW_WORDS && bn < 64
    requires Holds(words, flags)
    requires forall i :: 0 <= i < WINDOW_WORDS ==> after[i] == ShiftedWord(words, wn, bn, i)
    ensures Holds(after, Shifted(flags, 64 * wn + bn))
  {
    hide ShiftedWord, DigitAfter, FlagAfter, Shifted;
    forall i, b | 0 <= i < WINDOW_WORDS && 0 <= b < 64
      ensures after[i][b] == Shifted(flags, 64 * wn + bn)[64 * i + b]
    {
      ShiftedWordAt(words, wn, bn, i, b);
      DigitIsFlag(words, flags, wn, bn, i, b);
      ShiftedAt(flags, 64 * wn + bn, 64 * i + b);
    }
  }

  /** Zeroed words are a fresh window. */
  lemma ClearedWords(words: seq<Word64>)
    requires |words| == WINDOW_WORDS
    requires forall i :: 0 <= i < WINDOW_WORDS ==> words[i] == Zeros(64)
    ensures Flatten(words) == Zeros(WINDOW_BITS)
  {
    FlattenHolds(words);
    HoldsUnique(words, Flatten(words), Zeros(WINDOW_BITS));
  }

  lemma SetDigit(words: seq<Word64>, flags: seq<bool>, i: nat, b: nat)
    requires |words| == WINDOW_WORDS && i < WINDOW_WORDS && b < 64
    requires Holds(words, flags)
    ensures Holds(words[i := Or(words[i], Mask(b))], flags[64 * i + b := true])
  {}

  lemma TestDigit(w: Word64, b: nat)
    requires b < 64
    ensures And(w, Mask(b)) != Zeros(64) <==> w[b]
  {
    if w[b] {
      assert And(w, Mask(b))[b] != Zeros(64)[b];
    } else {
      assert And(w, Mask(b)) == Zeros(64);
    }
  }

  /** The part of `check_replay` that makes room for a newer number: clears the words on a jump
      of 2048 or more, else shifts them in place, from the last word down. */
  method MakeRoom(window: array<Word64>, diff: nat, ghost flags: seq<bool>)
    requires window.Length == WINDOW_WORDS && Holds(window[..], flags)
    modifies window
    ensures Holds(window[..], Shifted(flags, diff))
  {
    hide Holds, ShiftedWord, Shifted, Flatten;
    if diff >= WINDOW_WORDS * 64 {
      ClearWindow(window);
      FlattenHolds(window[..]);
      HoldsAll(old(window[..]), flags);
      ShiftedOut(flags, diff);
    } else {
      var wn, bn := diff / 64, diff % 64;
      ghost var before := window[..];
      ShiftWords(window, wn, bn);
      ShiftLoopIsShift(before, flags, wn, bn, window[..]);
    }
  }

  method ShiftWords(window: array<Word64>, wn: nat, bn: nat)
    requires window.Length == WINDOW_WORDS && bn < 64
    modifies window
    ensures forall i :: 0 <= i < WINDOW_WORDS ==> window[i] == ShiftedWord(old(window[..]), wn, bn, i)
  {
    hide Or, Shl, Shr, Zeros;
    for i := WINDOW_WORDS downto 0
      invariant forall j :: 0 <= j < i ==> window[j] == old(window[j])
      invariant forall j :: i <= j < WINDOW_WORDS ==> window[j] == ShiftedWord(old(window[..]), wn, bn, j)
    {
      var loSrc := i - wn;
      var hiSrc := loSrc - 1;
      var lo := if loSrc >= 0 then window[loSrc] else Zeros(64);
      var hi := if bn > 0 && hiSrc >= 0 then window[hiSrc] else Zeros(64);
      window[i] := if bn > 0 then Or(Shl(lo, bn), Shr(hi, 64 - bn)) else lo;
    }
  }

  /** `memset(window, 0, ...)` */
  method ClearWindow(window: array<Word64>)
    requires window.Length == WINDOW_WORDS
    modifies window
    ensures Flatten(window[..]) == Zeros(WINDOW_BITS)
  {
    for i := 0 to WINDOW_WORDS
      invariant forall j :: 0 <= j < i ==> window[j] == Zeros(64)
    {
      window[i] := Zeros(64);
    }
    ClearedWords(window[..]);
  }

  /** `window[word] |= 1ULL << bit` */
  method SetFlag(window: array<Word64>, word: nat, bit: nat, ghost flags: seq<bool>)
    requires window.Length == WINDOW_WORDS && word < WINDOW_WORDS && bit < 64
    requires Holds(window[..], flags)
    modifies window
    ensures Holds(window[..], flags[64 * word + bit := true])
  {
    SetDigit(window[..], flags, word, bit);
    ghost var before := window[..];
    window[word] := Or(window[word], Mask(bit));
    assert window[..] == before[word := Or(before[word], Mask(bit))];
  }

  /** `check_replay`: shifts, tests and sets the words of `window` in place. The second result
      is the new value of `*highest`. */
  method CheckReplay(s: uint64, highest: uint64, window: array<Word64>)
    returns (accepted: bool, newHighest: uint64)
    requires window.Length == WINDOW_WORDS
    modifies window
    ensures (Window(newHighest, Flatten(window[..])), accepted)
         == Check(Window(highest, Flatten(old(window[..]))), s)
  {
    hide Flatten, Shifted, Or, Mask, And, Zeros;
    ghost var flags := Flatten(window[..]);
    FlattenHolds(window[..]);
    if s > highest {
      MakeRoom(window, s - highest, flags);
      flags := Shifted(flags, s - highest);
      SetFlag(window, 0, 0, flags);
      flags := flags[0 := true];
      accepted, newHighest := true, s;
    } else if highest - s >= WINDOW_WORDS * 64 {
      accepted, newHighest := false, highest;
    } else {
      var word, bit := (highest - s) / 64, (highest - s) % 64;
      TestDigit(window[word], bit);
      assert window[..][word][bit] == flags[highest - s];
      if And(window[word], Mask(bit)) != Zeros(64) {
        accepted, newHighest := false, highest;
      } else {
        SetFlag(window, word, bit, flags);
        flags := flags[highest - s := true];
        accepted, newHighest := true, highest;
      }
    }
    FlattenHolds(window[..]);
    HoldsUnique(window[..], flags, Flatten(window[..]));
  }

  // ----- the window against the set of numbers accepted so far

  /** What a replay window is for: accept a number that was never accepted and is less than 2048
      behind every accepted one. */
  ghost predicate Acceptable(accepted: set<uint64>, n: uint64) {
    n !in accepted && forall m :: m in accepted ==> m - n < WINDOW_BITS
  }

  /** `w` records exactly `accepted`, as far back as it reaches. */
  ghost predicate Records(w: Window, accepted: set<uint64>) {
    && w.Valid()
    && (forall m :: m in accepted ==> m <= w.highest)
    && (accepted == {} ==> w.highest == 0)
    && (accepted != {} ==> w.highest in accepted)
    && forall k :: 0 <= k < WINDOW_BITS ==>
         w.flags[k] == (k <= w.highest && w.highest - k in accepted)
  }

  lemma FreshRecordsNothing()
    ensures Records(Fresh(), {})
  {}

  ghost function Extended(accepted: set<uint64>, n: uint64, ok: bool): set<uint64> {
    if ok then accepted + {n} else accepted
  }

  /** One call of `check_replay` accepts exactly the acceptable numbers and records its verdict. */
  lemma CheckDecides(w: Window, accepted: set<uint64>, n: uint64)
    requires Records(w, accepted)
    ensures Check(w, n).1 <==> Acceptable(accepted, n)
    ensures Records(Check(w, n).0, Extended(accepted, n, Check(w, n).1))
  {}

  /** The window after a fresh session has seen `nums`. */
  function After(nums: seq<uint64>): (w: Window)
    ensures w.Valid()
  {
    if nums == [] then Fresh() else Check(After(nums[..|nums| - 1]), nums[|nums| - 1]).0
  }

  /** The numbers among `nums` that a fresh session accepts. */
  ghost function Accepted(nums: seq<uint64>): set<uint64> {
    if nums == [] then {}
    else
      var earlier, n := nums[..|nums| - 1], nums[|nums| - 1];
      Extended(Accepted(earlier), n, Check(After(earlier), n).1)
  }

  lemma {:induction false} AfterRecords(nums: seq<uint64>)
    ensures Records(After(nums), Accepted(nums))
  {
    if nums == [] {
      FreshRecordsNothing();
    } else {
      AfterRecords(nums[..|nums| - 1]);
      CheckDecides(After(nums[..|nums| - 1]), Accepted(nums[..|nums| - 1]), nums[|nums| - 1]);
    }
  }

  /** Main result: over every run from a fresh window, a number is accepted exactly when it was
      never accepted before and is less than 2048 behind the highest. */
  lemma WindowIsExact(nums: seq<uint64>, n: uint64)
    ensures Check(After(nums), n).1 <==>
            n !in Accepted(nums) && forall m :: m in Accepted(nums) ==> m - n < 2048
  {
    AfterRecords(nums);
    CheckDecides(After(nums), Accepted(nums), n);
  }

  /** Position `i` of the run `nums` is accepted. */
  ghost predicate AcceptedAt(nums: seq<uint64>, i: nat)
    requires i < |nums|
  {
    Check(After(nums[..i]), nums[i]).1
  }

  lemma {:induction false} AcceptedStays(nums: seq<uint64>, i: nat)
    requires i < |nums| && AcceptedAt(nums, i)
    ensures nums[i] in Accepted(nums)
  {
    var earlier := nums[..|nums| - 1];
    if i < |earlier| {
      assert earlier[..i] == nums[..i];
      AcceptedStays(earlier, i);
    }
  }

  /** No number is accepted twice in any run. */
  lemma NeverAcceptedTwice(nums: seq<uint64>, i: nat, j: nat)
    requires i < j < |nums| && nums[i] == nums[j] && AcceptedAt(nums, i)
    ensures !AcceptedAt(nums, j)
  {
    var before := nums[..j];
    assert before[..i] == nums[..i];
    AcceptedStays(before, i);
    WindowIsExact(before, nums[j]);
  }
}

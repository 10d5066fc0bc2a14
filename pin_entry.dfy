/**
 * The PIN-entry editor shared by the menu PIN prompt and both prompts of the
 * PIN change: digits are appended up to 16 characters, B deletes the last
 * character, C clears, and the display row shows one asterisk per character.
 */
module PinEntry {
  import opened LockTypes

  /** The buffer after one key of a PIN prompt (keys other than digits, B and C leave it alone). */
  function EditPin(buf: string, key: char): (r: string)
    ensures |buf| <= MAX_PIN_LENGTH ==> |r| <= MAX_PIN_LENGTH
    ensures AllDigits(buf) ==> AllDigits(r)
    ensures IsDigit(key) && |buf| < MAX_PIN_LENGTH ==> r == buf + [key]
    ensures key == 'B' ==> (buf == [] && r == []) || (buf != [] && r == buf[..|buf| - 1])
    ensures key == 'C' ==> r == []
    ensures (IsDigit(key) && |buf| >= MAX_PIN_LENGTH) || (!IsDigit(key) && key != 'B' && key != 'C') ==> r == buf
    ensures r == buf + [key] || r <= buf
  {
    if IsDigit(key) then
      (if |buf| < MAX_PIN_LENGTH then buf + [key] else buf)
    else if key == 'B' then
      (if |buf| > 0 then buf[..|buf| - 1] else buf)
    else if key == 'C' then
      []
    else
      buf
  }

  /** The buffer after a whole run of keys, one EditPin per key. */
  function EditAll(buf: string, keys: string): (r: string)
    ensures |r| <= |buf| + |keys|
    decreases |keys|
  {
    if keys == [] then buf else EditAll(EditPin(buf, keys[0]), keys[1..])
  }

  /**
   * Reference count of the buffer length, kept from the keys alone: a digit
   * adds one unless 16 are held, B takes one away unless none is held, C resets.
   */
  function LengthAfter(n: nat, keys: string): nat
    decreases |keys|
  {
    if keys == [] then n
    else
      var k := keys[0];
      var n' := if IsDigit(k) then (if n < MAX_PIN_LENGTH then n + 1 else n)
                else if k == 'B' then (if n > 0 then n - 1 else n)
                else if k == 'C' then 0
                else n;
      LengthAfter(n', keys[1..])
  }

  /** The buffer never exceeds 16 digits, whatever keys are typed. */
  lemma {:induction false} EditAllStaysPinShaped(buf: string, keys: string)
    requires PinShaped(buf)
    ensures PinShaped(EditAll(buf, keys))
    decreases |keys|
  {
    if keys != [] {
      EditAllStaysPinShaped(EditPin(buf, keys[0]), keys[1..]);
    }
  }

  /** The number of characters held (and so of asterisks shown) is the reference count. */
  lemma {:induction false} EditAllLength(buf: string, keys: string)
    requires |buf| <= MAX_PIN_LENGTH
    ensures |EditAll(buf, keys)| == LengthAfter(|buf|, keys)
    decreases |keys|
  {
    if keys != [] {
      EditAllLength(EditPin(buf, keys[0]), keys[1..]);
    }
  }

  /** Typing the digits of p (at most 16 in all) enters exactly p. */
  lemma {:induction false} TypingDigitsEntersThem(buf: string, p: string)
    requires AllDigits(p) && |buf| + |p| <= MAX_PIN_LENGTH
    ensures EditAll(buf, p) == buf + p
    decreases |p|
  {
    if p != [] {
      assert IsDigit(p[0]);
      TypingDigitsEntersThem(buf + [p[0]], p[1..]);
      assert buf + [p[0]] + p[1..] == buf + p;
    }
  }

  /** Editing a run of keys is editing its first part, then its second. */
  lemma {:induction false} EditAllSplit(buf: string, xs: string, ys: string)
    ensures EditAll(buf, xs + ys) == EditAll(EditAll(buf, xs), ys)
    decreases |xs|
  {
    if xs != [] {
      assert (xs + ys)[0] == xs[0];
      assert (xs + ys)[1..] == xs[1..] + ys;
      EditAllSplit(EditPin(buf, xs[0]), xs[1..], ys);
    } else {
      assert xs + ys == ys;
    }
  }

  /** After a C, nothing typed before it matters. */
  lemma ClearForgetsEarlierKeys(buf: string, xs: string, ys: string)
    ensures EditAll(buf, xs + ['C'] + ys) == EditAll([], ys)
  {
    EditAllSplit(buf, xs + ['C'], ys);
    EditAllSplit(buf, xs, ['C']);
    assert EditAll(EditAll(buf, xs), ['C']) == EditAll([], []);
  }

  /** B undoes a digit that was appended. */
  lemma BackspaceUndoesDigit(buf: string, d: char)
    requires IsDigit(d) && |buf| < MAX_PIN_LENGTH
    ensures EditPin(EditPin(buf, d), 'B') == buf
  {
    assert (buf + [d])[..|buf|] == buf;
  }

  /** The masked row: one asterisk per character of the buffer. */
  function Masked(buf: string): (row: string)
    ensures |row| == |buf|
    ensures forall i :: 0 <= i < |row| ==> row[i] == '*'
  {
    seq(|buf|, _ => '*')
  }

  /** Builds the masked row one asterisk at a time, as the prompts redraw it. */
  method MaskRow(buf: string) returns (row: string)
    ensures row == Masked(buf)
  {
    row := "";
    for i := 0 to |buf|
      invariant |row| == i
      invariant forall j :: 0 <= j < i ==> row[j] == '*'
    {
      row := row + ['*'];
    }
  }
}

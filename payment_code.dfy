/** The transaction-code rule that both payment modals apply to the M-Pesa
    code the user pastes: a length check, nothing more, on text that the
    input field caps at twenty code units. Lengths are JavaScript lengths:
    UTF-16 code units, so a character outside the Basic Multilingual Plane
    (an emoji, say) counts twice. */
module PaymentCode {

  /** Fewest code units a code needs before Finish is enabled. */
  const MinLength: nat := 10

  /** The text input's `maxLength`. */
  const MaxLength: nat := 20

  /** Code units that character `c` takes in UTF-16: two for a surrogate
      pair, one otherwise. */
  function Width(c: char): (w: nat)
    ensures 1 <= w <= 2
    ensures w == 2 <==> c as int >= 0x1_0000
  {
    if c as int >= 0x1_0000 then 2 else 1
  }

  /** JavaScript's `.length` of `s`: its number of UTF-16 code units. */
  function Utf16Length(s: string): (n: nat)
    ensures |s| <= n <= 2 * |s|
    ensures n == |s| <== (forall i :: 0 <= i < |s| ==> s[i] as int < 0x1_0000)
  {
    if s == [] then 0 else Utf16Length(s[..|s| - 1]) + Width(s[|s| - 1])
  }

  /** A prefix is never longer, in code units, than the text it starts. */
  lemma {:induction false} PrefixNoLonger(a: string, b: string)
    requires a <= b
    ensures Utf16Length(a) <= Utf16Length(b)
  {
    if |a| < |b| {
      assert a <= b[..|b| - 1];
      PrefixNoLonger(a, b[..|b| - 1]);
    } else {
      assert a == b;
    }
  }

  /** The `isCodeValid` flag that the validity effect derives from the
      code: at least ten code units, which is at least five characters and
      always holds from ten characters on. */
  predicate IsValid(code: string)
    ensures IsValid(code) ==> |code| >= MinLength / 2
    ensures |code| >= MinLength ==> IsValid(code)
  {
    Utf16Length(code) >= MinLength
  }

  /** Whether the inline "must be at least 10 characters" hint is rendered;
      it shows exactly for a code that was typed but is still too short, so
      never beside an enabled Finish button. */
  predicate ShowsLengthHint(code: string)
    ensures ShowsLengthHint(code) <==> code != "" && !IsValid(code)
  {
    0 < Utf16Length(code) && Utf16Length(code) < MinLength
  }

  /** What the input holds after the user types or pastes `text`: the
      longest start of `text` that fits in `MaxLength` code units. */
  function Entered(text: string): (code: string)
    ensures Utf16Length(code) <= MaxLength
    ensures code <= text
    ensures Utf16Length(text) <= MaxLength ==> code == text
    ensures |code| < |text| ==> Utf16Length(text[..|code| + 1]) > MaxLength
  {
    if Utf16Length(text) <= MaxLength then text
    else
      var shorter := text[..|text| - 1];
      var code := Entered(shorter);
      assert |code| < |shorter| ==> shorter[..|code| + 1] == text[..|code| + 1];
      assert |code| == |shorter| ==> text[..|code| + 1] == text;
      code
  }

  /** Capping never changes the verdict: whatever is typed or pasted is
      accepted iff it has at least `MinLength` code units, and an accepted
      code has between `MinLength` and `MaxLength` of them. */
  lemma EnteredValidIffLongEnough(text: string)
    ensures IsValid(Entered(text)) <==> Utf16Length(text) >= MinLength
    ensures IsValid(Entered(text)) ==> MinLength <= Utf16Length(Entered(text)) <= MaxLength
  {
    var code := Entered(text);
    PrefixNoLonger(code, text);
    if |code| < |text| {
      var next := text[..|code| + 1];
      assert next[..|next| - 1] == code;
    } else {
      assert code == text;
    }
  }

  /** Text of at most twenty characters, all inside the Basic Multilingual
      Plane, is kept whole and judged by its number of characters. */
  lemma ShortPlainTextKept(text: string)
    requires |text| <= MaxLength
    requires forall i :: 0 <= i < |text| ==> text[i] as int < 0x1_0000
    ensures Entered(text) == text
    ensures IsValid(Entered(text)) <==> |text| >= MinLength
  {
  }
}

/**
 * The five-character loyalty code shown by `open_loyalty_overlay` (main.py):
 * the stored phone with `+ ( ) -` and spaces removed, `"13037"` when nothing
 * is left, then cut to five characters or zero-filled on the left.
 */
module LoyaltyCode {

  const CodeLength: nat := 5
  const DefaultCode: string := "13037"

  /** The characters the source removes, one `str.replace` call each. */
  predicate IsSeparator(c: char) {
    c == '+' || c == '(' || c == ')' || c == '-' || c == ' '
  }

  /** Python's `s.replace(c, "")`: every occurrence of `c` removed. */
  function RemoveChar(s: string, c: char): (r: string)
    ensures |r| <= |s|
    ensures c !in r
  {
    if s == [] then []
    else if s[0] == c then RemoveChar(s[1..], c)
    else [s[0]] + RemoveChar(s[1..], c)
  }

  /** The replace chain as the source writes it: `+`, then `(`, `)`, `-` and the space. */
  function StripSeparators(phone: string): string {
    RemoveChar(RemoveChar(RemoveChar(RemoveChar(RemoveChar(phone, '+'), '('), ')'), '-'), ' ')
  }

  /** Reference reading: keep exactly the characters that are not separators, in order. */
  function KeepNonSeparators(s: string): (r: string)
    ensures |r| <= |s|
    ensures forall i :: 0 <= i < |r| ==> !IsSeparator(r[i])
  {
    if s == [] then []
    else if IsSeparator(s[0]) then KeepNonSeparators(s[1..])
    else [s[0]] + KeepNonSeparators(s[1..])
  }

  lemma {:induction false} RemoveCharAppend(a: string, b: string, c: char)
    ensures RemoveChar(a + b, c) == RemoveChar(a, c) + RemoveChar(b, c)
  {
    if a != [] {
      assert (a + b)[1..] == a[1..] + b;
      RemoveCharAppend(a[1..], b, c);
    } else {
      assert a + b == b;
    }
  }

  /** The five chained replaces remove exactly the separator characters and keep the rest in order. */
  lemma {:induction false} StripSeparatorsIsFilter(phone: string)
    ensures StripSeparators(phone) == KeepNonSeparators(phone)
  {
    if phone != [] {
      StripSeparatorsIsFilter(phone[1..]);
      var head := [phone[0]];
      assert phone == head + phone[1..];
      var r1 := RemoveChar(phone[1..], '+');
      var r2 := RemoveChar(r1, '(');
      var r3 := RemoveChar(r2, ')');
      var r4 := RemoveChar(r3, '-');
      RemoveCharAppend(head, phone[1..], '+');
      RemoveCharAppend(RemoveChar(head, '+'), r1, '(');
      RemoveCharAppend(RemoveChar(RemoveChar(head, '+'), '('), r2, ')');
      RemoveCharAppend(RemoveChar(RemoveChar(RemoveChar(head, '+'), '('), ')'), r3, '-');
      RemoveCharAppend(RemoveChar(RemoveChar(RemoveChar(RemoveChar(head, '+'), '('), ')'), '-'), r4, ' ');
    }
  }

  function Zeros(n: nat): (z: string)
    ensures |z| == n && forall i :: 0 <= i < n ==> z[i] == '0'
  {
    if n == 0 then [] else "0" + Zeros(n - 1)
  }

  /**
   * Python's `str.zfill(width)`: pad on the left with '0' up to `width`;
   * a leading '+' or '-' stays in front of the padding.
   */
  function ZFill(s: string, width: nat): (r: string)
    ensures |r| == if |s| >= width then |s| else width
    ensures |s| >= width ==> r == s
    ensures s != [] && (s[0] == '+' || s[0] == '-') ==> r[0] == s[0]
  {
    if |s| >= width then s
    else if s != [] && (s[0] == '+' || s[0] == '-') then [s[0]] + Zeros(width - |s|) + s[1..]
    else Zeros(width - |s|) + s
  }

  /** `user_code` of the source, before cutting or padding. */
  function RawCode(phone: string): string {
    var digits := StripSeparators(phone);
    if digits == [] then DefaultCode else digits
  }

  /** `code_text` of the source. */
  function Code(phone: string): string {
    var raw := RawCode(phone);
    if |raw| >= CodeLength then raw[..CodeLength] else ZFill(raw, CodeLength)
  }

  lemma RawCodeHasNoSeparators(phone: string)
    ensures RawCode(phone) != []
    ensures forall i :: 0 <= i < |RawCode(phone)| ==> !IsSeparator(RawCode(phone)[i])
  {
    StripSeparatorsIsFilter(phone);
  }

  /**
   * The code always has five characters: the first five of the stripped phone
   * when it has at least five, otherwise that text with zeros in front; since
   * stripping removed every sign, `zfill` never keeps a sign in front.
   */
  lemma CodeShape(phone: string)
    ensures |Code(phone)| == CodeLength
    ensures |RawCode(phone)| >= CodeLength ==> Code(phone) == RawCode(phone)[..CodeLength]
    ensures |RawCode(phone)| < CodeLength ==>
              Code(phone) == Zeros(CodeLength - |RawCode(phone)|) + RawCode(phone)
  {
    RawCodeHasNoSeparators(phone);
    var raw := RawCode(phone);
    if |raw| < CodeLength {
      assert !IsSeparator(raw[0]);
    }
  }

  lemma {:induction false} OnlySeparatorsFilterEmpty(s: string)
    requires forall i :: 0 <= i < |s| ==> IsSeparator(s[i])
    ensures KeepNonSeparators(s) == []
  {
    if s != [] {
      OnlySeparatorsFilterEmpty(s[1..]);
    }
  }

  /** A phone that is empty or made only of separators shows the default code. */
  lemma EmptyPhoneGivesDefault(phone: string)
    requires forall i :: 0 <= i < |phone| ==> IsSeparator(phone[i])
    ensures Code(phone) == "13037"
  {
    StripSeparatorsIsFilter(phone);
    OnlySeparatorsFilterEmpty(phone);
  }

  /** A longer number keeps its first five characters: "+7912345" gives "79123". */
  lemma LongCodeExample(phone: string)
    requires phone == "+7912345"
    ensures Code(phone) == "79123"
  {
    StripSeparatorsIsFilter(phone);
    assert phone[1..] == "7912345";
    NoSeparatorsFixed(phone[1..]);
    assert KeepNonSeparators(phone) == "7912345";
    assert RawCode(phone) == "7912345";
    CodeShape(phone);
  }

  /** A short code is zero-filled: "12-3" gives "00123". */
  lemma ShortCodeExample(phone: string)
    requires phone == "12-3"
    ensures Code(phone) == "00123"
  {
    StripSeparatorsIsFilter(phone);
    assert phone[1..] == "2-3" && phone[2..] == "-3" && phone[3..] == "3";
    assert KeepNonSeparators(phone[3..]) == "3";
    assert KeepNonSeparators(phone[2..]) == "3";
    assert KeepNonSeparators(phone[1..]) == "23";
    assert RawCode(phone) == "123";
    CodeShape(phone);
    assert Zeros(2) == "00";
  }

  /** Normalising a code again gives the same code. */
  lemma CodeIdempotent(phone: string)
    ensures Code(Code(phone)) == Code(phone)
  {
    var c := Code(phone);
    CodeShape(phone);
    RawCodeHasNoSeparators(phone);
    var raw := RawCode(phone);
    forall i | 0 <= i < |c| ensures !IsSeparator(c[i]) {
      if |raw| < CodeLength && i >= CodeLength - |raw| {
        assert c[i] == raw[i - (CodeLength - |raw|)];
      }
    }
    NoSeparatorsFixed(c);
    StripSeparatorsIsFilter(c);
    assert c[..CodeLength] == c;
  }

  lemma {:induction false} NoSeparatorsFixed(s: string)
    requires forall i :: 0 <= i < |s| ==> !IsSeparator(s[i])
    ensures KeepNonSeparators(s) == s
  {
    if s != [] {
      NoSeparatorsFixed(s[1..]);
    }
  }
}

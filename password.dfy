/**
 * Password rules: the strength check applied to new passwords and the test that tells
 * a stored plaintext password from a bcrypt hash.
 *
 * Strings are sequences of Unicode scalar values; the Go code's `len` counts UTF-8
 * bytes, modelled by Utf8Len. Upper case, lower case and digits are the ASCII ones.
 */
module Password {
  import opened Wrappers

  const MinPasswordLength := 8
  const BcryptHashLength := 60

  datatype StrengthError = TooShort | NoUppercase | NoLowercase | NoDigit

  function Message(e: StrengthError): string {
    match e
    case TooShort => "password must be at least 8 characters long"
    case NoUppercase => "password must contain at least one uppercase letter"
    case NoLowercase => "password must contain at least one lowercase letter"
    case NoDigit => "password must contain at least one digit"
  }

  // ---------------------------------------------------------------------------
  // Byte length
  // ---------------------------------------------------------------------------

  /** The number of bytes UTF-8 spends on one character. */
  function Utf8Width(c: char): (w: int)
    ensures 1 <= w <= 4
    ensures w == 1 <==> c as int < 0x80
  {
    if c as int < 0x80 then 1
    else if c as int < 0x800 then 2
    else if c as int < 0x10000 then 3
    else 4
  }

  /** Go's len on a string: its length in UTF-8 bytes. */
  function Utf8Len(s: string): (n: int)
    ensures |s| <= n <= 4 * |s|
  {
    if s == [] then 0 else Utf8Len(s[..|s| - 1]) + Utf8Width(s[|s| - 1])
  }

  lemma {:induction false} Utf8LenAppend(a: string, b: string)
    ensures Utf8Len(a + b) == Utf8Len(a) + Utf8Len(b)
    decreases |b|
  {
    if b == [] {
      assert a + b == a;
    } else {
      assert (a + b)[..|a + b| - 1] == a + b[..|b| - 1];
      Utf8LenAppend(a, b[..|b| - 1]);
    }
  }

  predicate IsAscii(s: string) {
    forall i :: 0 <= i < |s| ==> s[i] as int < 0x80
  }

  /** For ASCII text, bytes and characters coincide. */
  lemma {:induction false} AsciiUtf8Len(s: string)
    requires IsAscii(s)
    ensures Utf8Len(s) == |s|
    decreases |s|
  {
    if s != [] {
      AsciiUtf8Len(s[..|s| - 1]);
    }
  }

  lemma Utf8LenInsert(front: string, c: char, back: string)
    ensures Utf8Len(front + ([c] + back)) == Utf8Len(front + back) + Utf8Width(c)
  {
    Utf8LenAppend(front, [c] + back);
    Utf8LenAppend([c], back);
    Utf8LenAppend(front, back);
    assert [c][..0] == [];
  }

  /** Taking one character out of a string takes its width off the byte length. */
  lemma Utf8LenRemove(t: string, k: int)
    requires 0 <= k < |t|
    ensures Utf8Len(t) == Utf8Len(t[..k] + t[k + 1..]) + Utf8Width(t[k])
  {
    var front, back := t[..k], t[k + 1..];
    Utf8LenInsert(front, t[k], back);
    SplitAround(t, k);
  }

  lemma SplitAround(t: string, k: int)
    requires 0 <= k < |t|
    ensures t[..k] + ([t[k]] + t[k + 1..]) == t
  {
  }

  lemma MultisetRemove(t: string, k: int)
    requires 0 <= k < |t|
    ensures multiset(t[..k] + t[k + 1..]) == multiset(t) - multiset{t[k]}
  {
    assert t == t[..k] + [t[k]] + t[k + 1..];
  }

  /** The byte length depends only on which characters occur, not on their order. */
  lemma {:induction false} Utf8LenPermutation(s: string, t: string)
    requires multiset(s) == multiset(t)
    ensures Utf8Len(s) == Utf8Len(t)
    decreases |s|
  {
    if s == [] {
      assert |multiset(t)| == 0;
    } else {
      var last := |s| - 1;
      assert s[last] in multiset(t);
      var k :| 0 <= k < |t| && t[k] == s[last];
      MultisetRemove(s, last);
      MultisetRemove(t, k);
      assert s[..last] + s[last + 1..] == s[..last];
      Utf8LenPermutation(s[..last], t[..k] + t[k + 1..]);
      Utf8LenRemove(t, k);
    }
  }

  // ---------------------------------------------------------------------------
  // Strength
  // ---------------------------------------------------------------------------

  predicate IsUpper(c: char) { 'A' <= c <= 'Z' }
  predicate IsLower(c: char) { 'a' <= c <= 'z' }
  predicate IsDigit(c: char) { '0' <= c <= '9' }

  predicate HasUpper(s: string) { exists i :: 0 <= i < |s| && IsUpper(s[i]) }
  predicate HasLower(s: string) { exists i :: 0 <= i < |s| && IsLower(s[i]) }
  predicate HasDigit(s: string) { exists i :: 0 <= i < |s| && IsDigit(s[i]) }

  /**
   * The answer ValidatePasswordStrength gives: the first requirement that fails, in the
   * order length, upper case, lower case, digit; None when all hold.
   */
  function Strength(password: string): (r: Option<StrengthError>)
    ensures r.None? <==> Utf8Len(password) >= MinPasswordLength
                         && HasUpper(password) && HasLower(password) && HasDigit(password)
    ensures r == Some(TooShort) <==> Utf8Len(password) < MinPasswordLength
    ensures r == Some(NoUppercase) <==> Utf8Len(password) >= MinPasswordLength && !HasUpper(password)
    ensures r == Some(NoLowercase) <==> Utf8Len(password) >= MinPasswordLength && HasUpper(password) && !HasLower(password)
    ensures r == Some(NoDigit) <==>
              Utf8Len(password) >= MinPasswordLength && HasUpper(password) && HasLower(password) && !HasDigit(password)
  {
    if Utf8Len(password) < MinPasswordLength then Some(TooShort)
    else if !HasUpper(password) then Some(NoUppercase)
    else if !HasLower(password) then Some(NoLowercase)
    else if !HasDigit(password) then Some(NoDigit)
    else None
  }

  /** ValidatePasswordStrength: one pass over the characters setting three flags, then the checks in order. */
  method ValidatePasswordStrength(password: string) returns (err: Option<StrengthError>)
    ensures err == Strength(password)
  {
    if Utf8Len(password) < MinPasswordLength {
      return Some(TooShort);
    }
    var hasUpper, hasLower, hasDigit := false, false, false;
    for i := 0 to |password|
      invariant hasUpper == HasUpper(password[..i])
      invariant hasLower == HasLower(password[..i])
      invariant hasDigit == HasDigit(password[..i])
    {
      var c := password[i];
      assert password[..i + 1] == password[..i] + [c];
      if IsUpper(c) {
        hasUpper := true;
      } else if IsLower(c) {
        hasLower := true;
      } else if IsDigit(c) {
        hasDigit := true;
      }
    }
    assert password[..|password|] == password;
    if !hasUpper {
      return Some(NoUppercase);
    }
    if !hasLower {
      return Some(NoLowercase);
    }
    if !hasDigit {
      return Some(NoDigit);
    }
    return None;
  }

  /** A short password is refused as too short whatever it contains. */
  lemma ShortIsTooShortWhateverItHolds(password: string)
    requires Utf8Len(password) < MinPasswordLength
    ensures Strength(password) == Some(TooShort)
  {
  }

  /** Rearranging the characters of a password does not change the verdict. */
  lemma OrderDoesNotMatter(s: string, t: string)
    requires multiset(s) == multiset(t)
    ensures Strength(s) == Strength(t)
  {
    Utf8LenPermutation(s, t);
    SameCharacters(s, t);
    SameCharacters(t, s);
  }

  /** Every character of s occurs in t, so each class present in s is present in t. */
  lemma SameCharacters(s: string, t: string)
    requires multiset(s) == multiset(t)
    ensures HasUpper(s) ==> HasUpper(t)
    ensures HasLower(s) ==> HasLower(t)
    ensures HasDigit(s) ==> HasDigit(t)
  {
    forall i | 0 <= i < |s| ensures exists j :: 0 <= j < |t| && t[j] == s[i] {
      assert s[i] in multiset(s);
      assert s[i] in multiset(t);
    }
  }

  lemma TooShortExample()
    ensures Strength("short") == Some(TooShort)
  {
    AsciiUtf8Len("short");
  }

  /** Each missing class is reported, in the fixed order. */
  lemma MissingClassExamples()
    ensures Strength("alllowercase1") == Some(NoUppercase)
    ensures Strength("ALLUPPERCASE1") == Some(NoLowercase)
    ensures Strength("NoDigitsHere") == Some(NoDigit)
  {
    AsciiUtf8Len("alllowercase1");
    AsciiUtf8Len("ALLUPPERCASE1");
    AsciiUtf8Len("NoDigitsHere");
    assert "ALLUPPERCASE1"[0] == 'A';
    assert "NoDigitsHere"[0] == 'N' && "NoDigitsHere"[1] == 'o';
  }

  lemma ValidExamples()
    ensures Strength("ValidPass1") == None
    ensures Strength("Another$Valid2") == None
  {
    AsciiUtf8Len("ValidPass1");
    AsciiUtf8Len("Another$Valid2");
    assert "ValidPass1"[0] == 'V' && "ValidPass1"[1] == 'a' && "ValidPass1"[9] == '1';
    assert "Another$Valid2"[0] == 'A' && "Another$Valid2"[1] == 'n' && "Another$Valid2"[13] == '2';
  }

  // ---------------------------------------------------------------------------
  // Legacy plaintext passwords
  // ---------------------------------------------------------------------------

  /** The prefixes bcrypt hashes start with. */
  predicate IsBcryptPrefix(p: string) {
    p == "$2a$" || p == "$2b$" || p == "$2y$"
  }

  /**
   * IsLegacyPassword: a stored password is plaintext unless it is 60 bytes long and
   * starts with a bcrypt prefix. The prefixes are ASCII, so comparing the first four
   * bytes is comparing the first four characters.
   */
  function IsLegacyPassword(stored: string): (legacy: bool)
    ensures Utf8Len(stored) != BcryptHashLength ==> legacy
    ensures !legacy <==> Utf8Len(stored) == BcryptHashLength && |stored| >= 4 && IsBcryptPrefix(stored[..4])
  {
    if Utf8Len(stored) != BcryptHashLength then true
    else if |stored| >= 4 && IsBcryptPrefix(stored[..4]) then false
    else true
  }

  /** Sixty ASCII characters behind a bcrypt prefix are taken for a hash, behind any other prefix for plaintext. */
  lemma HashShapes(prefix: string, rest: string)
    requires |prefix| == 4 && IsAscii(prefix) && IsAscii(rest) && |rest| == 56
    ensures IsLegacyPassword(prefix + rest) <==> !IsBcryptPrefix(prefix)
  {
    assert IsAscii(prefix + rest);
    AsciiUtf8Len(prefix + rest);
    assert (prefix + rest)[..4] == prefix;
  }

  lemma LegacyExamples()
    ensures IsLegacyPassword("plaintext")
    ensures IsLegacyPassword("short")
  {
    AsciiUtf8Len("plaintext");
    AsciiUtf8Len("short");
  }
}

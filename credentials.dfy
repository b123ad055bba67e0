/**
 * Credential checks of the authentication view model: the e-mail pattern
 * `[A-Z0-9a-z._%+-]+@[A-Za-z0-9.-]+\.[A-Za-z]{2,64}` matched against the whole
 * string, the minimum password length, and the translation of the
 * authentication service's error codes into user-facing messages.
 */
module Credentials {
  import opened Wrappers

  const InvalidEmailMessage: string := "請輸入有效的電子郵件地址"
  const ShortPasswordMessage: string := "密碼至少需要6個字符"
  const PasswordMismatchMessage: string := "密碼不匹配"
  const ResetMailSentMessage: string := "密碼重設郵件已發送到您的信箱"

  /** The shortest accepted password, counted in characters. */
  const MinPasswordLength: nat := 6

  // ---------------------------------------------------------------------
  // Character classes of the e-mail pattern

  predicate IsAsciiLetter(c: char) {
    ('A' <= c <= 'Z') || ('a' <= c <= 'z')
  }

  predicate IsAsciiDigit(c: char) {
    '0' <= c <= '9'
  }

  /** `[A-Z0-9a-z._%+-]` */
  predicate IsLocalChar(c: char) {
    IsAsciiLetter(c) || IsAsciiDigit(c) || c == '.' || c == '_' || c == '%' || c == '+' || c == '-'
  }

  /** `[A-Za-z0-9.-]` */
  predicate IsDomainChar(c: char) {
    IsAsciiLetter(c) || IsAsciiDigit(c) || c == '.' || c == '-'
  }

  /** `[A-Z0-9a-z._%+-]+` */
  predicate IsLocalPart(s: string) {
    |s| > 0 && forall k | 0 <= k < |s| :: IsLocalChar(s[k])
  }

  /** `[A-Za-z0-9.-]+` */
  predicate IsDomainPart(s: string) {
    |s| > 0 && forall k | 0 <= k < |s| :: IsDomainChar(s[k])
  }

  /** `[A-Za-z]{2,64}` */
  predicate IsTopLevelPart(s: string) {
    2 <= |s| <= 64 && forall k | 0 <= k < |s| :: IsAsciiLetter(s[k])
  }

  // ---------------------------------------------------------------------
  // The structural description of a valid address

  /**
   * `s` is `L@D.T` with `s[at] == '@'` and `s[dot]` the `.` before `T`:
   * L a local part, D a domain part and T a top-level part.
   */
  ghost predicate IsEmailSplit(s: string, at: int, dot: int) {
    && 0 <= at < dot < |s|
    && s[at] == '@' && s[dot] == '.'
    && IsLocalPart(s[..at])
    && IsDomainPart(s[at + 1..dot])
    && IsTopLevelPart(s[dot + 1..])
  }

  /** The whole string matches the e-mail pattern. */
  ghost predicate MatchesEmailPattern(s: string) {
    exists at, dot :: IsEmailSplit(s, at, dot)
  }

  // ---------------------------------------------------------------------
  // The recognizer

  /** Index of the first occurrence of `c` in `s`. */
  function FirstIndexOf(s: string, c: char): (r: Option<nat>)
    ensures r.Some? ==> r.value < |s| && s[r.value] == c && forall k | 0 <= k < r.value :: s[k] != c
    ensures r.None? ==> forall k | 0 <= k < |s| :: s[k] != c
  {
    if |s| == 0 then None
    else if s[0] == c then Some(0)
    else match FirstIndexOf(s[1..], c)
      case None => None
      case Some(i) => Some(i + 1)
  }

  /** Index of the last occurrence of `c` in `s`. */
  function LastIndexOf(s: string, c: char): (r: Option<nat>)
    ensures r.Some? ==> r.value < |s| && s[r.value] == c && forall k | r.value < k < |s| :: s[k] != c
    ensures r.None? ==> forall k | 0 <= k < |s| :: s[k] != c
  {
    if |s| == 0 then None
    else if s[|s| - 1] == c then Some(|s| - 1)
    else LastIndexOf(s[..|s| - 1], c)
  }

  /**
   * `isValidEmail`: split at the first `@`, then split what follows at its
   * last `.`, and check the three pieces against their character classes.
   */
  predicate IsValidEmail(s: string) {
    match FirstIndexOf(s, '@')
    case None => false
    case Some(at) =>
      var rest := s[at + 1..];
      && IsLocalPart(s[..at])
      && match LastIndexOf(rest, '.')
         case None => false
         case Some(dot) => IsDomainPart(rest[..dot]) && IsTopLevelPart(rest[dot + 1..])
  }

  /** `isValidPassword`: at least six characters. */
  predicate IsValidPassword(p: string) {
    |p| >= MinPasswordLength
  }

  /** A split names the first `@` (there is no other) and the last `.`. */
  lemma {:induction false} EmailSplitPositions(s: string, at: int, dot: int)
    requires IsEmailSplit(s, at, dot)
    ensures forall k | 0 <= k < |s| && k != at :: s[k] != '@'
    ensures forall k | dot < k < |s| :: s[k] != '.'
  {
    forall k | 0 <= k < |s| && k != at
      ensures s[k] != '@'
    {
      if k < at {
        assert s[..at][k] == s[k];
      } else if k < dot {
        assert s[at + 1..dot][k - at - 1] == s[k];
      } else if k == dot {
      } else {
        assert s[dot + 1..][k - dot - 1] == s[k];
      }
    }
    forall k | dot < k < |s|
      ensures s[k] != '.'
    {
      assert s[dot + 1..][k - dot - 1] == s[k];
    }
  }

  /** What the recognizer accepts splits as the pattern demands. */
  lemma ValidEmailSplits(s: string)
    requires IsValidEmail(s)
    ensures MatchesEmailPattern(s)
  {
    var at := FirstIndexOf(s, '@').value;
    var rest := s[at + 1..];
    var dot := LastIndexOf(rest, '.').value;
    assert rest[..dot] == s[at + 1..at + 1 + dot];
    assert rest[dot + 1..] == s[at + 1 + dot + 1..];
    assert IsEmailSplit(s, at, at + 1 + dot);
  }

  /** The recognizer finds the split of a string of the pattern. */
  lemma SplitIsValidEmail(s: string, at: int, dot: int)
    requires IsEmailSplit(s, at, dot)
    ensures IsValidEmail(s)
  {
    EmailSplitPositions(s, at, dot);
    assert FirstIndexOf(s, '@') == Some(at);
    var rest := s[at + 1..];
    var d := dot - at - 1;
    assert rest[d] == s[dot];
    forall k | d < k < |rest|
      ensures rest[k] != '.'
    {
      assert rest[k] == s[at + 1 + k];
    }
    assert LastIndexOf(rest, '.') == Some(d);
    assert rest[..d] == s[at + 1..dot];
    assert rest[d + 1..] == s[dot + 1..];
  }

  /** The recognizer accepts exactly the strings of the pattern. */
  lemma ValidEmailIffPattern(s: string)
    ensures IsValidEmail(s) <==> MatchesEmailPattern(s)
  {
    if IsValidEmail(s) {
      ValidEmailSplits(s);
    }
    if MatchesEmailPattern(s) {
      var at, dot :| IsEmailSplit(s, at, dot);
      SplitIsValidEmail(s, at, dot);
    }
  }

  /** A valid address has exactly one `@`. */
  lemma ValidEmailHasOneAt(s: string)
    ensures IsValidEmail(s) ==> multiset(s)['@'] == 1
  {
    if IsValidEmail(s) {
      ValidEmailIffPattern(s);
      var at, dot :| IsEmailSplit(s, at, dot);
      EmailSplitPositions(s, at, dot);
      assert s == s[..at] + [s[at]] + s[at + 1..];
      assert '@' !in s[..at];
      var tail := s[at + 1..];
      forall k | 0 <= k < |tail|
        ensures tail[k] != '@'
      {
        assert tail[k] == s[at + 1 + k];
      }
      assert '@' !in tail;
      assert multiset(s) == multiset(s[..at]) + multiset([s[at]]) + multiset(s[at + 1..]);
    }
  }

  /** The split of a valid address is unique, and `T` is what follows the last `.`. */
  lemma EmailSplitUnique(s: string, at: int, dot: int, at': int, dot': int)
    requires IsEmailSplit(s, at, dot) && IsEmailSplit(s, at', dot')
    ensures at == at' && dot == dot'
  {
    EmailSplitPositions(s, at, dot);
    EmailSplitPositions(s, at', dot');
  }

  /**
   * Both checks accept only strings of at least six characters (the shortest
   * address is `L@D.TT`), so a field the forms accept is never empty.
   */
  lemma AcceptedFieldsAreLong(s: string)
    ensures IsValidEmail(s) ==> |s| >= 6
    ensures IsValidPassword(s) ==> |s| >= 6
  {
    if IsValidEmail(s) {
      ValidEmailSplits(s);
      var at, dot :| IsEmailSplit(s, at, dot);
      assert |s[..at]| > 0 && |s[at + 1..dot]| > 0 && |s[dot + 1..]| >= 2;
    }
  }

  // ---------------------------------------------------------------------
  // Error translation

  /** The authentication error codes that have a message of their own. */
  datatype AuthErrorCode =
    | InvalidEmail
    | UserNotFound
    | WrongPassword
    | EmailAlreadyInUse
    | WeakPassword
    | NetworkError
    | UserDisabled
    | TooManyRequests
    | OtherCode   // any other code, including numbers that are no known code

  /** An error reported by the authentication service. */
  datatype AuthError = AuthError(code: AuthErrorCode, localizedDescription: string)

  /** `translateFirebaseError` */
  function TranslateFirebaseError(e: AuthError): (message: string)
    ensures e.code == OtherCode ==> message == e.localizedDescription
    ensures e.code != OtherCode ==> message != ""
  {
    match e.code
    case InvalidEmail => "電子郵件格式不正確"
    case UserNotFound => "找不到此用戶"
    case WrongPassword => "密碼錯誤"
    case EmailAlreadyInUse => "此電子郵件已被使用"
    case WeakPassword => "密碼強度不足"
    case NetworkError => "網路連接錯誤"
    case UserDisabled => "此帳戶已被停用"
    case TooManyRequests => "請求次數過多，請稍後再試"
    case OtherCode => e.localizedDescription
  }

  /**
   * A listed code gets its fixed message whatever the description says, and
   * the eight messages are pairwise different, so each one names its code.
   */
  lemma KnownMessagesDistinct(e1: AuthError, e2: AuthError)
    requires e1.code != OtherCode && e2.code != OtherCode
    ensures TranslateFirebaseError(e1) == TranslateFirebaseError(e2) <==> e1.code == e2.code
  {
    var m1, m2 := TranslateFirebaseError(e1), TranslateFirebaseError(e2);
    if e1.code != e2.code && |m1| == |m2| {
      assert m1[0] != m2[0];
    }
  }
}

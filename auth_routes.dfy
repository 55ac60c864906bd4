/**
 * The request validation of the registration and login routes
 * (`server/routes/authRoutes.js`). Each chain runs all of its validators and
 * reports every failure; a request is accepted when no chain reports one.
 */
module AuthRoutes {
  import opened Strings
  import UserModel

  datatype FieldError =
    | UsernameLength | UsernameChars | UsernameAllDigits
    | EmailInvalid | EmailTooLong
    | PasswordLength | PasswordComplexity | PasswordForbiddenChars
    | LoginEmailInvalid | LoginPasswordEmpty

  /** `/^\d+$/` */
  predicate AllDigits(s: string) {
    s != [] && forall i :: 0 <= i < |s| ==> IsDigit(s[i])
  }

  /** `[@$!%*?&.:]` */
  predicate IsPasswordSpecial(c: char) {
    c == '@' || c == '$' || c == '!' || c == '%' || c == '*' || c == '?' || c == '&' || c == '.' || c == ':'
  }

  /** `[<>"']` */
  predicate IsForbiddenPasswordChar(c: char) {
    c == '<' || c == '>' || c == '"' || c == '\''
  }

  /**
   * `/^(?=.*[a-z])(?=.*[A-Z])(?=.*\d)(?=.*[@$!%*?&.:]).*$/`. The final `.*$`
   * spans the whole string and `.` does not match a line terminator, so the
   * string has no line terminator, and each look-ahead then finds its class
   * anywhere in it.
   */
  predicate MatchesPasswordPattern(p: string) {
    && (forall i :: 0 <= i < |p| ==> !IsLineTerminator(p[i]))
    && (exists i :: 0 <= i < |p| && IsAsciiLower(p[i]))
    && (exists i :: 0 <= i < |p| && IsAsciiUpper(p[i]))
    && (exists i :: 0 <= i < |p| && IsDigit(p[i]))
    && (exists i :: 0 <= i < |p| && IsPasswordSpecial(p[i]))
  }

  /** `isLength` measures with `IsLengthCount`. */
  function UsernameErrors(u: string): seq<FieldError> {
    (if 3 <= IsLengthCount(u) <= 30 then [] else [UsernameLength])
    + (if u != [] && forall i :: 0 <= i < |u| ==> UserModel.IsUsernameChar(u[i]) then [] else [UsernameChars])
    + (if AllDigits(u) then [UsernameAllDigits] else [])
  }

  /** `isEmail` is the validator library's address grammar, given as a parameter. */
  function EmailErrors(e: string, isEmail: string -> bool): seq<FieldError> {
    (if isEmail(e) then [] else [EmailInvalid])
    + (if IsLengthCount(e) <= 100 then [] else [EmailTooLong])
  }

  function PasswordErrors(p: string): seq<FieldError> {
    (if 8 <= IsLengthCount(p) <= 128 then [] else [PasswordLength])
    + (if MatchesPasswordPattern(p) then [] else [PasswordComplexity])
    + (if exists i :: 0 <= i < |p| && IsForbiddenPasswordChar(p[i]) then [PasswordForbiddenChars] else [])
  }

  /** The errors the registration route reports, chain by chain. */
  function RegisterErrors(username: string, email: string, password: string,
                          isEmail: string -> bool): seq<FieldError>
  {
    UsernameErrors(username) + EmailErrors(email, isEmail) + PasswordErrors(password)
  }

  /** A username the registration route accepts; its characters are ASCII, so every length count agrees. */
  predicate RegisterUsernameOk(u: string) {
    && 3 <= |u| <= 30
    && (forall i :: 0 <= i < |u| ==> UserModel.IsUsernameChar(u[i]))
    && (exists i :: 0 <= i < |u| && !IsDigit(u[i]))
  }

  /** A password the registration route accepts. */
  predicate RegisterPasswordOk(p: string) {
    && 8 <= IsLengthCount(p) <= 128
    && (forall i :: 0 <= i < |p| ==> !IsLineTerminator(p[i]) && !IsForbiddenPasswordChar(p[i]))
    && (exists i :: 0 <= i < |p| && IsAsciiLower(p[i]))
    && (exists i :: 0 <= i < |p| && IsAsciiUpper(p[i]))
    && (exists i :: 0 <= i < |p| && IsDigit(p[i]))
    && (exists i :: 0 <= i < |p| && IsPasswordSpecial(p[i]))
  }

  /** Registration passes validation exactly when each field meets its rules. */
  lemma RegisterAccepts(username: string, email: string, password: string, isEmail: string -> bool)
    ensures RegisterErrors(username, email, password, isEmail) == [] <==>
      RegisterUsernameOk(username) && isEmail(email) && IsLengthCount(email) <= 100 && RegisterPasswordOk(password)
  {
    if forall i :: 0 <= i < |username| ==> UserModel.IsUsernameChar(username[i]) {
      IsLengthCountPlain(username);
    }
  }

  /** The login route: `isEmail` on the address and `notEmpty` on the password. */
  function LoginErrors(email: string, password: string, isEmail: string -> bool): (errs: seq<FieldError>)
    ensures errs == [] <==> isEmail(email) && password != ""
    ensures password == "" ==> LoginPasswordEmpty in errs
  {
    (if isEmail(email) then [] else [LoginEmailInvalid])
    + (if password != "" then [] else [LoginPasswordEmpty])
  }

  predicate IsEscaped(c: char) {
    c == '&' || c == '"' || c == '\'' || c == '<' || c == '>' || c == '/' || c == '\\' || c == '`'
  }

  /** The HTML entity `escape` writes for one character; any other character stands for itself. */
  function EscapeChar(c: char): (e: string)
    ensures |e| >= 1
    ensures |e| == 1 <==> !IsEscaped(c)
    ensures !IsEscaped(c) ==> e == [c]
  {
    if c == '&' then "&amp;"
    else if c == '"' then "&quot;"
    else if c == '\'' then "&#x27;"
    else if c == '<' then "&lt;"
    else if c == '>' then "&gt;"
    else if c == '/' then "&#x2F;"
    else if c == '\\' then "&#x5C;"
    else if c == '`' then "&#96;"
    else [c]
  }

  /** The `escape` sanitizer: HTML-escapes `& " ' < > / \` and the backtick. */
  function Escape(s: string): (r: string)
    ensures |r| >= |s|
  {
    if s == [] then [] else EscapeChar(s[0]) + Escape(s[1..])
  }

  /** `escape` leaves a string alone exactly when it has none of the escaped characters. */
  lemma {:induction false} EscapeIdentity(s: string)
    ensures Escape(s) == s <==> forall i :: 0 <= i < |s| ==> !IsEscaped(s[i])
  {
    if s != [] {
      EscapeIdentity(s[1..]);
      EscapeLength(s[1..]);
      if IsEscaped(s[0]) {
        assert |Escape(s)| > |s|;
      } else {
        assert forall i :: 1 <= i < |s| ==> s[i] == s[1..][i - 1];
        assert s == [s[0]] + s[1..];
      }
    }
  }

  lemma {:induction false} EscapeLength(s: string)
    ensures |Escape(s)| == |s| <==> forall i :: 0 <= i < |s| ==> !IsEscaped(s[i])
  {
    if s != [] {
      EscapeLength(s[1..]);
      assert |Escape(s)| == |EscapeChar(s[0])| + |Escape(s[1..])|;
      assert forall i :: 1 <= i < |s| ==> s[i] == s[1..][i - 1];
    }
  }

  /**
   * The `trim` and `escape` sanitizers that run after the username validators do
   * not change an accepted username, so the stored name is the validated one.
   */
  lemma AcceptedUsernameUnchangedBySanitizers(u: string)
    requires RegisterUsernameOk(u)
    ensures Escape(Trim(u)) == u
  {
    assert UserModel.IsUsernameChar(u[0]) && UserModel.IsUsernameChar(u[|u| - 1]);
    assert Trim(u) == u;
    assert forall i :: 0 <= i < |u| ==> !IsEscaped(u[i]) by {
      forall i | 0 <= i < |u| ensures !IsEscaped(u[i]) {
        assert UserModel.IsUsernameChar(u[i]);
      }
    }
    EscapeIdentity(u);
  }

  /**
   * A username accepted by the route also passes the schema validators once the
   * schema's setters have lower-cased it.
   */
  lemma AcceptedUsernameFitsSchema(u: string)
    requires RegisterUsernameOk(u)
    ensures UserModel.ValidUsername(UserModel.Normalize(u))
  {
    assert UserModel.IsUsernameChar(u[0]) && UserModel.IsUsernameChar(u[|u| - 1]);
    assert Trim(u) == u;
    var n := UserModel.Normalize(u);
    assert forall i :: 0 <= i < |n| ==> UserModel.IsUsernameChar(n[i]);
    Utf16LengthBmp(n);
  }

  /**
   * The route's `isLength` and the schema's `maxlength` count differently, so a
   * password the route accepts meets the schema exactly when it is at most 128
   * UTF-16 units long; without code points above U+FFFF and without presentation
   * selectors the counts agree and it always does.
   */
  lemma AcceptedPasswordFitsSchema(p: string)
    requires RegisterPasswordOk(p)
    ensures UserModel.ValidPassword(p) <==> Utf16Length(p) <= 128
    ensures (forall i :: 0 <= i < |p| ==> !IsAstral(p[i]) && !IsPresentationSelector(p[i])) ==> UserModel.ValidPassword(p)
  {
    if forall i :: 0 <= i < |p| ==> !IsAstral(p[i]) && !IsPresentationSelector(p[i]) {
      Utf16LengthBmp(p);
      IsLengthCountPlain(p);
    }
  }

  /** One hundred U+1F600 after `Aa1!`: the route counts 104, the schema 204 UTF-16 units. */
  lemma AcceptedPasswordFailsSchema()
    ensures var p := "Aa1!" + seq(100, _ => '\U{1F600}');
      RegisterPasswordOk(p) && !UserModel.ValidPassword(p)
  {
    var e := seq(100, _ => '\U{1F600}');
    var p := "Aa1!" + e;
    AstralLengths(e);
    IsLengthCountPlain("Aa1!");
    Utf16LengthBmp("Aa1!");
    IsLengthCountAppend("Aa1!", e);
    Utf16LengthAppend("Aa1!", e);
    assert p[0] == 'A' && p[1] == 'a' && p[2] == '1' && p[3] == '!';
    assert forall i :: 4 <= i < |p| ==> p[i] == '\U{1F600}';
    assert IsAsciiLower(p[1]) && IsAsciiUpper(p[0]) && IsDigit(p[2]) && IsPasswordSpecial(p[3]);
  }

  /**
   * The password the login route hands to the controller, as written: the login
   * chain ends with `escape`, while the registration chain stores the password
   * unescaped.
   */
  function LoginPasswordAsWritten(p: string): string {
    Escape(p)
  }

  /** The corrected login chain: no sanitizer on the password. */
  function LoginPassword(p: string): string {
    p
  }

  /**
   * As written, a password the registration route accepts (it contains `&`,
   * one of the required special characters) reaches the login check altered,
   * so its hash comparison with the stored password fails.
   */
  lemma LoginEscapeBreaksAcceptedPassword()
    ensures RegisterPasswordOk("Abcdefg1&")
    ensures LoginPasswordAsWritten("Abcdefg1&") != "Abcdefg1&"
  {
    AmpersandPasswordAccepted();
    AmpersandPasswordEscaped();
  }

  lemma AmpersandPasswordAccepted()
    ensures RegisterPasswordOk("Abcdefg1&")
  {
    var p := "Abcdefg1&";
    assert forall i :: 0 <= i < |p| ==> ' ' < p[i] <= 'z' && !IsForbiddenPasswordChar(p[i]);
    IsLengthCountPlain(p);
    assert IsAsciiLower(p[1]) && IsAsciiUpper(p[0]) && IsDigit(p[7]) && IsPasswordSpecial(p[8]);
  }

  lemma AmpersandPasswordEscaped()
    ensures Escape("Abcdefg1&") != "Abcdefg1&"
  {
    EscapeLength("Abcdefg1&");
    assert IsEscaped("Abcdefg1&"[8]);
  }

  /**
   * With the corrected chain, every registered password reaches the login check
   * as it was stored, for any hash function.
   */
  lemma LoginSeesRegisteredPassword(p: string, hash: string -> string)
    requires RegisterPasswordOk(p)
    ensures hash(LoginPassword(p)) == UserModel.StoredPassword(p, true, hash)
    ensures LoginErrors("x", LoginPassword(p), _ => true) == []
  {
  }
}

/**
 * The user document (`server/models/User.js`): the setters and validators of its
 * schema paths, the defaults of a new document, and the pre-save hook that hashes
 * a modified password.
 */
module UserModel {
  import opened Wrappers
  import opened Strings

  type UserId = string

  datatype User = User(
    id: UserId,
    username: string,
    email: string,
    password: string,
    publicKey: string,
    privateKey: string,
    isOnline: bool,
    lastSeen: int)

  /** The `trim` and `lowercase` setters shared by the username and email paths. */
  function Normalize(raw: string): string {
    LowerAscii(Trim(raw))
  }

  /** `[a-zA-Z0-9_]` */
  predicate IsUsernameChar(c: char) {
    IsAsciiLetter(c) || IsDigit(c) || c == '_'
  }

  /**
   * The username validators: `minlength` 3, `maxlength` 30 and `/^[a-zA-Z0-9_]+$/`.
   * Mongoose's length validators measure `length`, in UTF-16 units.
   */
  predicate ValidUsername(u: string) {
    3 <= Utf16Length(u) <= 30 && forall i :: 0 <= i < |u| ==> IsUsernameChar(u[i])
  }

  /** `[^\s@]` */
  predicate IsEmailChar(c: char) {
    !IsJsWhitespace(c) && c != '@'
  }

  /** A non-empty run of `[^\s@]`. */
  predicate EmailPart(p: string) {
    p != [] && forall i :: 0 <= i < |p| ==> IsEmailChar(p[i])
  }

  /** `r` has a dot that is neither its first nor its last character. */
  predicate HasInnerDot(r: string) {
    exists j :: 1 <= j < |r| - 1 && r[j] == '.'
  }

  /**
   * `/^[^\s@]+@[^\s@]+\.[^\s@]+$/`: no whitespace, exactly one `@` with text before
   * it, and after it a dot with text on both sides.
   */
  predicate MatchesEmailPattern(s: string) {
    && (forall i :: 0 <= i < |s| ==> !IsJsWhitespace(s[i]))
    && CountChar(s, '@') == 1
    && var a := IndexOf(s, '@');
       1 <= a < |s| && HasInnerDot(s[a + 1..])
  }

  /** The email validators: `required`, `maxlength` 100 (UTF-16 units) and the pattern. */
  predicate ValidEmail(e: string) {
    e != "" && Utf16Length(e) <= 100 && MatchesEmailPattern(e)
  }

  /** The password validators: `minlength` 8 and `maxlength` 128, in UTF-16 units of the plain text. */
  predicate ValidPassword(p: string) {
    8 <= Utf16Length(p) <= 128
  }

  datatype SchemaError = UsernameInvalid | EmailInvalid | PasswordInvalid | PublicKeyMissing | PrivateKeyMissing

  /** The paths that fail validation, in schema order (a validation error lists every failing path). */
  function SchemaErrors(username: string, email: string, password: string,
                        publicKey: string, privateKey: string): seq<SchemaError>
  {
    (if ValidUsername(username) then [] else [UsernameInvalid])
    + (if ValidEmail(email) then [] else [EmailInvalid])
    + (if ValidPassword(password) then [] else [PasswordInvalid])
    + (if publicKey != "" then [] else [PublicKeyMissing])
    + (if privateKey != "" then [] else [PrivateKeyMissing])
  }

  /**
   * `new User({...})` followed by validation: the setters normalise username and
   * email before the validators see them, `isOnline` defaults to `false` and
   * `lastSeen` to the creation time.
   */
  function CreateUser(id: UserId, rawUsername: string, rawEmail: string, password: string,
                      publicKey: string, privateKey: string, now: int): (r: Result<User, seq<SchemaError>>)
    ensures r.Ok? <==>
      ValidUsername(Normalize(rawUsername)) && ValidEmail(Normalize(rawEmail)) && ValidPassword(password)
      && publicKey != "" && privateKey != ""
    ensures r.Err? ==> r.error != []
    ensures r.Ok? ==>
      && r.value.id == id
      && r.value.username == Normalize(rawUsername)
      && r.value.email == Normalize(rawEmail)
      && r.value.password == password
      && r.value.publicKey == publicKey && r.value.privateKey == privateKey
      && !r.value.isOnline && r.value.lastSeen == now
  {
    var username := Normalize(rawUsername);
    var email := Normalize(rawEmail);
    var errors := SchemaErrors(username, email, password, publicKey, privateKey);
    if errors == [] then Ok(User(id, username, email, password, publicKey, privateKey, false, now))
    else Err(errors)
  }

  /** Normalising an already stored username or email changes nothing. */
  lemma {:induction false} NormalizeIdempotent(raw: string)
    ensures Normalize(Normalize(raw)) == Normalize(raw)
  {
    var t := Trim(raw);
    var l := LowerAscii(t);
    if l != [] {
      LowerKeepsWhitespace(t[0]);
      LowerKeepsWhitespace(t[|t| - 1]);
    }
    assert Trim(l) == l;
    LowerAsciiIdempotent(t);
  }

  lemma LowerKeepsWhitespace(c: char)
    ensures IsJsWhitespace(ToLowerAscii(c)) <==> IsJsWhitespace(c)
  {
  }

  lemma LowerAsciiIdempotent(s: string)
    ensures LowerAscii(LowerAscii(s)) == LowerAscii(s)
  {
    var l := LowerAscii(s);
    assert forall i :: 0 <= i < |l| ==> ToLowerAscii(l[i]) == l[i];
  }

  /** A stored username has no upper-case ASCII letter and no whitespace. */
  lemma StoredUsernameIsCanonical(id: UserId, rawUsername: string, rawEmail: string, password: string,
                                  publicKey: string, privateKey: string, now: int)
    requires CreateUser(id, rawUsername, rawEmail, password, publicKey, privateKey, now).Ok?
    ensures var u := CreateUser(id, rawUsername, rawEmail, password, publicKey, privateKey, now).value.username;
      forall i :: 0 <= i < |u| ==> !IsAsciiUpper(u[i]) && !IsJsWhitespace(u[i])
  {
  }

  /** Every address of the form `a@b.c` with `a`, `b`, `c` runs of `[^\s@]` matches the pattern. */
  lemma EmailPatternOfParts(a: string, b: string, c: string)
    requires EmailPart(a) && EmailPart(b) && EmailPart(c)
    ensures MatchesEmailPattern(a + "@" + b + "." + c)
  {
    var s := a + "@" + b + "." + c;
    NoSepCount(a, '@');
    NoSepCount(b, '@');
    NoSepCount(c, '@');
    CountCharAppend(a, "@", '@');
    CountCharAppend(a + "@", b, '@');
    CountCharAppend(a + "@" + b, ".", '@');
    CountCharAppend(a + "@" + b + ".", c, '@');
    assert s[|a|] == '@';
    assert forall j :: 0 <= j < |a| ==> s[j] == a[j];
    assert IndexOf(s, '@') == |a|;
    var r := s[|a| + 1..];
    assert r == b + "." + c;
    assert r[|b|] == '.';
  }

  /** The parts `a`, `b`, `c` of an address that matches the pattern (the dot is the first inner one). */
  function EmailParts(s: string): (string, string, string)
    requires MatchesEmailPattern(s)
  {
    var i := IndexOf(s, '@');
    var r := s[i + 1..];
    var j := InnerDot(r);
    (s[..i], r[..j], r[j + 1..])
  }

  /** The first dot of `r` after its first character. */
  function InnerDot(r: string): (j: nat)
    requires HasInnerDot(r)
    ensures 1 <= j < |r| - 1 && r[j] == '.'
    ensures forall k :: 1 <= k < j ==> r[k] != '.'
  {
    var j0 :| 1 <= j0 < |r| - 1 && r[j0] == '.';
    assert r[1..][j0 - 1] == '.';
    1 + IndexOf(r[1..], '.')
  }

  /** Conversely, every address matching the pattern is `a@b.c` with runs of `[^\s@]`. */
  lemma EmailPatternHasParts(s: string)
    requires MatchesEmailPattern(s)
    ensures var (a, b, c) := EmailParts(s);
      EmailPart(a) && EmailPart(b) && EmailPart(c) && s == a + "@" + b + "." + c
  {
    var i := IndexOf(s, '@');
    var r := s[i + 1..];
    var j := InnerDot(r);
    CountSplit(s, '@', i);
    CountCharZero(r, '@');
    EmailPartsChars(s, i, j);
    JoinedAtDot(s, i, j);
  }

  /** The text before the `@`, and the two runs around the dot after it, are runs of `[^\s@]`. */
  lemma EmailPartsChars(s: string, i: nat, j: nat)
    requires forall p :: 0 <= p < |s| ==> !IsJsWhitespace(s[p])
    requires 1 <= i < |s| && forall p :: 0 <= p < i ==> s[p] != '@'
    requires '@' !in s[i + 1..] && 1 <= j < |s[i + 1..]| - 1
    ensures EmailPart(s[..i]) && EmailPart(s[i + 1..][..j]) && EmailPart(s[i + 1..][j + 1..])
  {
    var r := s[i + 1..];
    var a, b, c := s[..i], r[..j], r[j + 1..];
    forall p | 0 <= p < |a| ensures IsEmailChar(a[p]) {
      assert a[p] == s[p];
    }
    forall p | 0 <= p < |b| ensures IsEmailChar(b[p]) {
      assert b[p] == r[p] == s[i + 1 + p];
      assert r[p] in r;
    }
    forall p | 0 <= p < |c| ensures IsEmailChar(c[p]) {
      assert c[p] == r[j + 1 + p] == s[i + 1 + j + 1 + p];
      assert r[j + 1 + p] in r;
    }
  }


  /** Cutting `s` at its `@` at `i` and at the dot `j` places after it gives back `s`. */
  lemma JoinedAtDot(s: string, i: nat, j: nat)
    requires i < |s| && s[i] == '@' && i + 1 + j < |s| && s[i + 1 + j] == '.'
    ensures s == s[..i] + "@" + s[i + 1..][..j] + "." + s[i + 1..][j + 1..]
  {
    var t := s[..i] + "@" + s[i + 1..][..j] + "." + s[i + 1..][j + 1..];
    assert |t| == |s|;
    forall k | 0 <= k < |s| ensures t[k] == s[k] {
      if k < i {
      } else if k == i {
      } else if k < i + 1 + j {
        assert t[k] == s[i + 1..][..j][k - i - 1];
      } else if k == i + 1 + j {
      } else {
        assert t[k] == s[i + 1..][j + 1..][k - i - j - 2];
      }
    }
  }

  /** The `pre('save')` hook: a modified password is replaced by its hash, otherwise kept. */
  function StoredPassword(current: string, modified: bool, hash: string -> string): string {
    if modified then hash(current) else current
  }

  /** A user document being saved; only the password path is tracked. */
  class UserDocument {
    var password: string
    /** `isModified('password')`; a new document counts its password as modified. */
    var passwordModified: bool

    constructor (password: string)
      ensures this.password == password && passwordModified
    {
      this.password := password;
      passwordModified := true;
    }

    method SetPassword(p: string)
      modifies this
      ensures password == p && passwordModified
    {
      password := p;
      passwordModified := true;
    }

    /** `save()`: runs the pre-save hook; afterwards no path counts as modified. */
    method Save(hash: string -> string)
      modifies this
      ensures password == StoredPassword(old(password), old(passwordModified), hash)
      ensures !passwordModified
    {
      if passwordModified {
        password := hash(password);
      }
      passwordModified := false;
    }
  }

  /** Saving a new user twice hashes the password once. */
  method SaveTwice(p: string, hash: string -> string) returns (stored: string)
    ensures stored == hash(p)
  {
    var d := new UserDocument(p);
    d.Save(hash);
    d.Save(hash);
    stored := d.password;
  }
}

/**
 * The registration endpoint: presence, email-format and password-length
 * checks in that order, a duplicate check, the created user without its
 * password, and the classification of anything thrown on the way.
 */
module RegisterRoute {
  import opened Js
  import opened Http

  // ---------------------------------------------------------------------------
  // The email pattern ^[^\s@]+@[^\s@]+\.[^\s@]+$

  /** A character `[^\s@]` matches. */
  predicate PartChar(c: char) {
    !IsWhitespace(c) && c != '@'
  }

  /** One `[^\s@]+` run. */
  predicate Part(x: string) {
    x != [] && forall i :: 0 <= i < |x| ==> PartChar(x[i])
  }

  /** The language of the pattern: three runs joined by '@' and '.'. */
  ghost predicate MatchesEmailPattern(s: string) {
    exists a: string, b: string, c: string :: Part(a) && Part(b) && Part(c) && s == a + "@" + b + "." + c
  }

  /** The first index of `c` in `s`. */
  function IndexOf(s: string, c: char): (r: Option<nat>)
    ensures r.Some? ==> r.value < |s| && s[r.value] == c && c !in s[..r.value]
    ensures r.None? ==> c !in s
  {
    if s == [] then None
    else if s[0] == c then Some(0)
    else
      var r := IndexOf(s[1..], c);
      if r.None? then None
      else
        assert s[..r.value + 1] == [s[0]] + s[1..][..r.value];
        Some(r.value + 1)
  }

  /** What follows the '@': runs of `[^\s@]` with a '.' that has text on both sides. */
  predicate DomainValid(d: string) {
    |d| >= 3 && '.' in d[1..|d| - 1] && forall i :: 0 <= i < |d| ==> PartChar(d[i])
  }

  /** The test the pattern performs on a string, decided by one scan for '@'. */
  predicate EmailValid(s: string) {
    var k := IndexOf(s, '@');
    k.Some? && k.value > 0 && Part(s[..k.value]) && DomainValid(s[k.value + 1..])
  }

  /** The decision procedure accepts exactly the language of the pattern. */
  lemma EmailValidMatchesPattern(s: string)
    ensures EmailValid(s) <==> MatchesEmailPattern(s)
  {
    if EmailValid(s) {
      ValidHasPattern(s);
    }
    if MatchesEmailPattern(s) {
      var a: string, b: string, c: string :| Part(a) && Part(b) && Part(c) && s == a + "@" + b + "." + c;
      PatternIsValid(s, a, b, c);
    }
  }

  lemma ValidHasPattern(s: string)
    requires EmailValid(s)
    ensures MatchesEmailPattern(s)
  {
    var k := IndexOf(s, '@').value;
    var d := s[k + 1..];
    var j := DotSplit(d);
    var a, b, c := s[..k], d[..j], d[j + 1..];
    assert d == b + "." + c;
    assert s == a + "@" + d;
    assert s == a + "@" + b + "." + c;
  }

  /** A valid domain splits at an inner '.' into two runs. */
  lemma DotSplit(d: string) returns (j: nat)
    requires DomainValid(d)
    ensures 0 < j < |d| - 1 && d[j] == '.'
    ensures Part(d[..j]) && Part(d[j + 1..])
  {
    var m := d[1..|d| - 1];
    var i :| 0 <= i < |m| && m[i] == '.';
    j := i + 1;
    var b, c := d[..j], d[j + 1..];
    forall x | 0 <= x < |b| ensures PartChar(b[x]) { assert b[x] == d[x]; }
    forall x | 0 <= x < |c| ensures PartChar(c[x]) { assert c[x] == d[j + 1 + x]; }
  }

  lemma PatternIsValid(s: string, a: string, b: string, c: string)
    requires Part(a) && Part(b) && Part(c) && s == a + "@" + b + "." + c
    ensures EmailValid(s)
  {
    var rest := b + "." + c;
    assert s == a + "@" + rest;
    NoAtBefore(s, a, rest);
    var k := |a|;
    assert s[..k] == a;
    assert s[k + 1..] == rest;
    RunsMakeDomain(b, c);
  }

  lemma RunsMakeDomain(b: string, c: string)
    requires Part(b) && Part(c)
    ensures DomainValid(b + "." + c)
  {
    var d := b + "." + c;
    assert d[1..|d| - 1][|b| - 1] == d[|b|] == '.';
    forall i | 0 <= i < |d| ensures PartChar(d[i]) {
      if i < |b| {
        assert d[i] == b[i];
      } else if i > |b| {
        assert d[i] == c[i - |b| - 1];
      }
    }
  }

  /** In `a + "@" + rest` with no '@' in `a`, the first '@' is the one after `a`. */
  lemma NoAtBefore(s: string, a: string, rest: string)
    requires Part(a) && s == a + "@" + rest
    ensures IndexOf(s, '@') == Some(|a|)
  {
    assert s[|a|] == '@';
    assert s[..|a|] == a;
  }

  /** Where the '@' and the '.' of a decomposition sit. */
  lemma Separators(a: string, b: string, c: string)
    ensures (a + "@" + b + "." + c)[|a|] == '@'
    ensures (a + "@" + b + "." + c)[|a| + 1 + |b|] == '.'
  {
  }

  /** An address with a dotted domain is accepted. */
  lemma DottedAddressAccepted()
    ensures EmailValid("ann@shop.co")
  {
    PatternIsValid("ann@shop.co", "ann", "shop", "co");
  }

  /** A domain without a '.' is refused. */
  lemma UndottedDomainRefused()
    ensures !MatchesEmailPattern("ann@shop")
  {
    if MatchesEmailPattern("ann@shop") {
      var a: string, b: string, c: string :| Part(a) && Part(b) && Part(c) && "ann@shop" == a + "@" + b + "." + c;
      Separators(a, b, c);
      assert false;
    }
  }

  /**
   * `emailRegex.test(email)`: a value that is not a string is tested as its
   * string form, and the forms of booleans, numbers and plain objects contain
   * no '@', so only strings can pass.
   */
  predicate EmailAccepted(email: Value) {
    email.Str? && EmailValid(email.s)
  }

  /**
   * `password.length < 6`: a string's length in UTF-16 code units; for any other value the
   * `length` property, which is undefined except on objects that carry one,
   * and `undefined < 6` is false.
   */
  predicate PasswordTooShort(password: Value) {
    if password.Str? then Utf16Length(password.s) < 6 else Below(ToNumber(Field(password, "length")), 6.0)
  }

  // ---------------------------------------------------------------------------
  // The handler

  /** A user row as `create` returns it. */
  datatype User = User(id: string, name: string, email: string, password: string)

  /** The user as the response shows it: every field but the password. */
  datatype PublicUser = PublicUser(id: string, name: string, email: string)

  datatype Registered = Registered(message: string, user: PublicUser)

  function WithoutPassword(u: User): (r: PublicUser)
    ensures r.id == u.id && r.name == u.name && r.email == u.email
  {
    PublicUser(u.id, u.name, u.email)
  }

  const ConnectionFailed := "Database connection failed. Please try again later."
  const AlreadyExists := "User with this email already exists"
  const OperationFailed := "Database operation failed. Please try again."
  const Unexpected := "An unexpected error occurred. Please try again."

  predicate ConnectionProblem(message: string) {
    Includes(message, "connect") || Includes(message, "ECONNREFUSED") ||
    Includes(message, "ENOTFOUND") || Includes(message, "timeout")
  }

  predicate DuplicateProblem(message: string) {
    Includes(message, "Unique constraint") || Includes(message, "duplicate key")
  }

  /** Lines 77-117: the answer to a thrown value, by the first rule its message meets. */
  function Classify<T>(e: Thrown): (r: Reply<T>)
    ensures r.Failure?
    ensures r.status == 503 <==> e.ErrorValue? && ConnectionProblem(e.message)
    ensures r == Failure(400, AlreadyExists) <==> e.ErrorValue? && !ConnectionProblem(e.message) && DuplicateProblem(e.message)
    ensures r == Failure(500, OperationFailed) <==>
              e.ErrorValue? && !ConnectionProblem(e.message) && !DuplicateProblem(e.message) && Includes(e.message, "Prisma")
    ensures r == Failure(500, Unexpected) <==>
              e.OtherValue? || !(ConnectionProblem(e.message) || DuplicateProblem(e.message) || Includes(e.message, "Prisma"))
  {
    if e.ErrorValue? && ConnectionProblem(e.message) then Failure(503, ConnectionFailed)
    else if e.ErrorValue? && DuplicateProblem(e.message) then Failure(400, AlreadyExists)
    else if e.ErrorValue? && Includes(e.message, "Prisma") then Failure(500, OperationFailed)
    else Failure(500, Unexpected)
  }

  /** A Prisma timeout counts as a connection failure, though its message also names Prisma. */
  lemma ClassifyExamples()
    ensures Classify<Registered>(ErrorValue("Prisma query timeout")) == Failure(503, ConnectionFailed)
    ensures Classify<Registered>(OtherValue) == Failure(500, Unexpected)
  {
    IncludesPiece("Prisma query ", "timeout", "");
    assert "Prisma query " + "timeout" + "" == "Prisma query timeout";
  }

  /**
   * What destructuring a `null` body throws. The wording is the engine's; it
   * meets none of the classification rules.
   */
  const NullBodyError := ErrorValue("Cannot destructure property 'name' of 'body' as it is null.")

  /** `typeof` of a value, as bcrypt's argument check names it. */
  function TypeName(v: Value): (r: string)
    ensures r == "string" <==> v.Str?
  {
    match v
    case Undefined => "undefined"
    case Null => "object"
    case Bool(_) => "boolean"
    case Num(_) => "number"
    case NaN => "number"
    case Str(_) => "string"
    case Obj(_) => "object"
  }

  /**
   * What `bcrypt.hash(password, 12)` rejects with when the password is not a
   * string: an Error naming the types of both arguments. A string password
   * is hashed without error.
   */
  function HashRefusal(password: Value): (r: Option<Thrown>)
    ensures r.None? <==> password.Str?
    ensures r.Some? ==> r.value.ErrorValue? && Includes(r.value.message, TypeName(password))
  {
    if password.Str? then None
    else
      IncludesPiece("Illegal arguments: ", TypeName(password), ", number");
      Some(ErrorValue("Illegal arguments: " + TypeName(password) + ", number"))
  }

  /** name, email and password are all truthy. */
  predicate FieldsPresent(body: Value) {
    Truthy(Field(body, "name")) && Truthy(Field(body, "email")) && Truthy(Field(body, "password"))
  }

  /** All three input checks pass. */
  predicate InputAccepted(body: Value) {
    FieldsPresent(body) && EmailAccepted(Field(body, "email")) && !PasswordTooShort(Field(body, "password"))
  }

  /**
   * POST. Each database step is given by its outcome: `body` is what
   * `request.json()` gives, `connect` what `$connect` throws if anything,
   * `lookup` whether `findUnique` finds a user, `create` the created row.
   * Hashing the password (line 51) is decided by the password itself.
   */
  function Register(body: Attempt<Value>, connect: Option<Thrown>, lookup: Attempt<bool>, create: Attempt<User>): (r: Reply<Registered>)
    ensures body.Threw? ==> r == Classify(body.error)
    ensures body == Done(Null) ==> r == Classify(NullBodyError)
    ensures r == BadRequest("Missing required fields") <==> body.Done? && body.value != Null && !FieldsPresent(body.value)
    ensures r == BadRequest("Invalid email format") <==>
              body.Done? && body.value != Null && FieldsPresent(body.value) && !EmailAccepted(Field(body.value, "email"))
    ensures r == BadRequest("Password must be at least 6 characters long") <==>
              body.Done? && body.value != Null && FieldsPresent(body.value) && EmailAccepted(Field(body.value, "email")) &&
              PasswordTooShort(Field(body.value, "password"))
    ensures body.Done? && body.value != Null && InputAccepted(body.value) && connect.Some? ==> r == Classify(connect.value)
    ensures body.Done? && body.value != Null && InputAccepted(body.value) && connect.None? && lookup.Threw? ==>
              r == Classify(lookup.error)
    ensures body.Done? && body.value != Null && InputAccepted(body.value) && connect.None? && lookup == Done(true) ==>
              r == BadRequest(AlreadyExists)
    ensures body.Done? && body.value != Null && InputAccepted(body.value) && connect.None? && lookup == Done(false) &&
            !Field(body.value, "password").Str? ==>
              r == Classify(HashRefusal(Field(body.value, "password")).value)
    ensures body.Done? && body.value != Null && InputAccepted(body.value) && connect.None? && lookup == Done(false) &&
            Field(body.value, "password").Str? && create.Threw? ==>
              r == Classify(create.error)
    ensures r.Success? <==>
              body.Done? && body.value != Null && InputAccepted(body.value) && connect.None? && lookup == Done(false) &&
              Field(body.value, "password").Str? && create.Done?
    ensures r.Success? ==> r == Success(201, Registered("User created successfully", WithoutPassword(create.value)))
  {
    if body.Threw? then Classify(body.error)
    else if body.value == Null then Classify(NullBodyError)
    else
      var b := body.value;
      if !FieldsPresent(b) then BadRequest("Missing required fields")
      else if !EmailAccepted(Field(b, "email")) then BadRequest("Invalid email format")
      else if PasswordTooShort(Field(b, "password")) then BadRequest("Password must be at least 6 characters long")
      else if connect.Some? then Classify(connect.value)
      else if lookup.Threw? then Classify(lookup.error)
      else if lookup.value then BadRequest(AlreadyExists)
      else if HashRefusal(Field(b, "password")).Some? then Classify(HashRefusal(Field(b, "password")).value)
      else if create.Threw? then Classify(create.error)
      else Success(201, Registered("User created successfully", WithoutPassword(create.value)))
  }

  /** A password of five characters is refused even with a valid email; a non-string password passes the length check. */
  lemma PasswordLength()
    ensures PasswordTooShort(Str("abcde"))
    ensures !PasswordTooShort(Str("abcdef"))
    ensures !PasswordTooShort(Num(12345.0))
  {
  }

  /** Three characters outside the Basic Multilingual Plane have `length` 6, so they make a long enough password. */
  lemma AstralPasswordLength()
    ensures !PasswordTooShort(Str("\U{1F600}\U{1F600}\U{1F600}"))
    ensures PasswordTooShort(Str("\U{1F600}\U{1F600}a"))
  {
    assert Utf16Length("\U{1F600}\U{1F600}\U{1F600}") == 2 + Utf16Length("\U{1F600}\U{1F600}");
    assert Utf16Length("\U{1F600}\U{1F600}") == 2 + Utf16Length("\U{1F600}");
    assert Utf16Length("\U{1F600}\U{1F600}a") == 2 + Utf16Length("\U{1F600}a");
    assert Utf16Length("\U{1F600}a") == 2 + Utf16Length("a");
  }

  /** bcrypt's refusal of a number, in its own words. */
  lemma NumberRefusal(x: real)
    ensures HashRefusal(Num(x)) == Some(ErrorValue("Illegal arguments: number, number"))
  {
    assert "Illegal arguments: " + "number" + ", number" == "Illegal arguments: number, number";
  }

  /** That refusal meets none of the classification rules. */
  lemma NumberRefusalUnexpected()
    ensures Classify<Registered>(ErrorValue("Illegal arguments: number, number")) == Failure(500, Unexpected)
  {
    var m := "Illegal arguments: number, number";
    assert 'c' !in m;
    assert 'E' !in m;
    assert 'i' !in m;
    NoRuleWithout(m);
  }

  /** A message without a 'c', an 'E' or an 'i' meets none of the classification rules. */
  lemma NoRuleWithout(m: string)
    requires 'c' !in m && 'E' !in m && 'i' !in m
    ensures !ConnectionProblem(m) && !DuplicateProblem(m) && !Includes(m, "Prisma")
    ensures Classify<Registered>(ErrorValue(m)) == Failure(500, Unexpected)
  {
    IncludesNeedsChar(m, "connect", 'c');
    IncludesNeedsChar(m, "ECONNREFUSED", 'E');
    IncludesNeedsChar(m, "ENOTFOUND", 'E');
    IncludesNeedsChar(m, "timeout", 'i');
    IncludesNeedsChar(m, "Unique constraint", 'i');
    IncludesNeedsChar(m, "duplicate key", 'i');
    IncludesNeedsChar(m, "Prisma", 'i');
  }

  /**
   * A numeric password passes the length check, but hashing refuses it: the
   * answer is 500 with the generic message, whatever `create` would have done.
   */
  lemma NumericPasswordUnexpected(body: Value, create: Attempt<User>)
    requires body != Null && InputAccepted(body) && Field(body, "password").Num?
    ensures Register(Done(body), None, Done(false), create) == Failure(500, Unexpected)
  {
    NumberRefusal(Field(body, "password").n);
    NumberRefusalUnexpected();
  }
}

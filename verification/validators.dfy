/**
 * The two input rules with logic of their own: the strong-password policy of
 * `CreateUserDto` and the 24-hex ObjectId rule of `AssignUserRequestDto`.
 * The password rule is class-validator's `IsStrongPassword`, which counts
 * characters of four classes; `IsEmail` stays a parameter.
 */
module Validators {
  import opened Js

  // ---------------------------------------------------------------- create-user.dto.ts

  predicate IsLowerCase(c: char) { 'a' <= c <= 'z' }
  predicate IsUpperCase(c: char) { 'A' <= c <= 'Z' }
  predicate IsDigit(c: char) { '0' <= c <= '9' }
  /** The symbol class of `IsStrongPassword`, space included. */
  predicate IsSymbol(c: char) { c in "-#!$@£%^&*()_+|~=`{}[]:\";'<>?,./\\ " }

  /** How many characters of `s` fall in a class. */
  function Count(s: string, inClass: char -> bool): (n: nat)
    ensures n <= |s|
  {
    if s == [] then 0 else (if inClass(s[0]) then 1 else 0) + Count(s[1..], inClass)
  }

  /** At least one character of the class is there exactly when the count is positive. */
  lemma {:induction false} CountPositiveIff(s: string, inClass: char -> bool)
    ensures Count(s, inClass) >= 1 <==> exists i :: 0 <= i < |s| && inClass(s[i])
  {
    if s != [] {
      CountPositiveIff(s[1..], inClass);
      if exists i :: 0 <= i < |s| && inClass(s[i]) {
        var i :| 0 <= i < |s| && inClass(s[i]);
        if i > 0 {
          assert s[1..][i - 1] == s[i];
        }
      }
      if exists j :: 0 <= j < |s[1..]| && inClass(s[1..][j]) {
        var j :| 0 <= j < |s[1..]| && inClass(s[1..][j]);
        assert s[j + 1] == s[1..][j];
      }
    }
  }

  const MIN_LENGTH := 8
  const MIN_LOWERCASE := 1
  const MIN_NUMBERS := 1
  const MIN_SYMBOLS := 1
  const MIN_UPPERCASE := 1

  /** `@IsStrongPassword({ minLength: 8, minLowercase: 1, minNumbers: 1, minSymbols: 1, minUppercase: 1 })` */
  predicate IsStrongPassword(password: string)
    ensures IsStrongPassword(password) ==> |password| >= MIN_LENGTH
    ensures |password| < MIN_LENGTH ==> !IsStrongPassword(password)
  {
    |password| >= MIN_LENGTH
    && Count(password, IsLowerCase) >= MIN_LOWERCASE
    && Count(password, IsUpperCase) >= MIN_UPPERCASE
    && Count(password, IsDigit) >= MIN_NUMBERS
    && Count(password, IsSymbol) >= MIN_SYMBOLS
  }

  /** The policy, stated without counting: eight characters and one of each class. */
  lemma StrongPasswordIff(p: string)
    ensures IsStrongPassword(p) <==>
      |p| >= 8
      && (exists i :: 0 <= i < |p| && IsLowerCase(p[i]))
      && (exists i :: 0 <= i < |p| && IsUpperCase(p[i]))
      && (exists i :: 0 <= i < |p| && IsDigit(p[i]))
      && (exists i :: 0 <= i < |p| && IsSymbol(p[i]))
  {
    CountPositiveIff(p, IsLowerCase);
    CountPositiveIff(p, IsUpperCase);
    CountPositiveIff(p, IsDigit);
    CountPositiveIff(p, IsSymbol);
  }

  /** A password lacking any one class is refused, whatever its length. */
  lemma MissingClassRefused(p: string)
    requires
      (forall i :: 0 <= i < |p| ==> !IsLowerCase(p[i])) ||
      (forall i :: 0 <= i < |p| ==> !IsUpperCase(p[i])) ||
      (forall i :: 0 <= i < |p| ==> !IsDigit(p[i])) ||
      (forall i :: 0 <= i < |p| ==> !IsSymbol(p[i]))
    ensures !IsStrongPassword(p)
  {
    StrongPasswordIff(p);
  }

  /** 'Str0ng!Pass' meets the policy. */
  lemma StrongPasswordExample()
    ensures IsStrongPassword("Str0ng!Pass")
  {
    var p := "Str0ng!Pass";
    assert IsLowerCase(p[1]) && IsUpperCase(p[0]) && IsDigit(p[3]) && IsSymbol(p[6]);
    StrongPasswordIff(p);
  }

  /** 'Str0ngPass' has no symbol and is refused, though long enough. */
  lemma NoSymbolExample()
    ensures !IsStrongPassword("Str0ngPass")
  {
    var p := "Str0ngPass";
    assert forall i :: 0 <= i < |p| ==> IsLowerCase(p[i]) || IsUpperCase(p[i]) || IsDigit(p[i]);
    MissingClassRefused(p);
  }

  /** `CreateUserDto` is accepted when the email is an address (`isEmail`) and the password is strong. */
  predicate CreateUserDtoValid(email: string, password: string, isEmail: string -> bool)
    // both fields are checked: a bad email or a weak password refuses the request
    ensures CreateUserDtoValid(email, password, isEmail) ==> isEmail(email) && |password| >= MIN_LENGTH
    ensures !isEmail(email) || !IsStrongPassword(password) ==> !CreateUserDtoValid(email, password, isEmail)
  {
    isEmail(email) && IsStrongPassword(password)
  }

  // ---------------------------------------------------------------- assign-user-request.dto.ts

  predicate IsHexDigit(c: char) {
    '0' <= c <= '9' || 'a' <= c <= 'f' || 'A' <= c <= 'F'
  }

  /** `[0-9a-fA-F]*` as an anchored match, one character at a time. */
  predicate HexRun(s: string) {
    s == [] || (IsHexDigit(s[0]) && HexRun(s[1..]))
  }

  /** `/^[0-9a-fA-F]{24}$/.test(s)` */
  predicate IsObjectId(s: string)
    ensures IsObjectId(s) ==> |s| == 24
  {
    |s| == 24 && HexRun(s)
  }

  /** The regex accepts exactly 24 hex characters of either case. */
  lemma {:induction false} HexRunIff(s: string)
    ensures HexRun(s) <==> forall i :: 0 <= i < |s| ==> IsHexDigit(s[i])
  {
    if s != [] {
      HexRunIff(s[1..]);
      assert forall i :: 1 <= i < |s| ==> s[i] == s[1..][i - 1];
    }
  }

  lemma ObjectIdIff(s: string)
    ensures IsObjectId(s) <==> |s| == 24 && forall i :: 0 <= i < |s| ==> IsHexDigit(s[i])
  {
    HexRunIff(s);
  }

  /** A lower-case id is accepted. */
  lemma ObjectIdLowerExample()
    ensures IsObjectId("507f1f77bcf86cd799439011")
  {
    var s := "507f1f77bcf86cd799439011";
    assert forall i :: 0 <= i < |s| ==> IsHexDigit(s[i]);
    ObjectIdIff(s);
  }

  /** The same id in upper case is accepted as well. */
  lemma ObjectIdUpperExample()
    ensures IsObjectId("507F1F77BCF86CD799439011")
  {
    var s := "507F1F77BCF86CD799439011";
    assert forall i :: 0 <= i < |s| ==> IsHexDigit(s[i]);
    ObjectIdIff(s);
  }

  /** One non-hex character is enough to refuse a 24-character id. */
  lemma ObjectIdNonHexExample()
    ensures !IsObjectId("507f1f77bcf86cd79943901g")
  {
    var s := "507f1f77bcf86cd79943901g";
    assert !IsHexDigit(s[23]);
    ObjectIdIff(s);
  }

  const OBJECT_ID_MESSAGE := "authorId must be a valid MongoDB ObjectId"

  /** A failed decorator: the property and class-validator's message. */
  datatype Violation = Violation(property: string, message: string)

  /** `@IsNotEmpty()`: anything but '', null and undefined. */
  predicate NotEmpty(v: Value) {
    v != Str("") && v != Null && v != Undefined
  }

  function StringRules(property: string, v: Value): (errs: set<Violation>)
    ensures errs == {} <==> v.Str? && v.s != ""
  {
    (if v.Str? then {} else {Violation(property, property + " must be a string")})
    + (if NotEmpty(v) then {} else {Violation(property, property + " should not be empty")})
  }

  /** Every violation `AssignUserRequestDto` reports for a payload; the nested DTO is not validated itself. */
  function ValidateAssignUserRequest(dto: Value): (errs: set<Violation>)
    ensures errs == {} <==>
      NotEmpty(Get(dto, "assignUserDto"))
      && Get(dto, "id").Str? && Get(dto, "id").s != ""
      && Get(dto, "requestId").Str? && Get(dto, "requestId").s != ""
      && Get(dto, "userId").Str? && IsObjectId(Get(dto, "userId").s)
    // a bad user id is reported with the custom message, under the name `authorId`
    ensures !(Get(dto, "userId").Str? && IsObjectId(Get(dto, "userId").s)) ==> Violation("userId", OBJECT_ID_MESSAGE) in errs
  {
    var userId := Get(dto, "userId");
    (if NotEmpty(Get(dto, "assignUserDto")) then {} else {Violation("assignUserDto", "assignUserDto should not be empty")})
    + StringRules("id", Get(dto, "id"))
    + StringRules("requestId", Get(dto, "requestId"))
    + StringRules("userId", userId)
    + (if userId.Str? && IsObjectId(userId.s) then {} else {Violation("userId", OBJECT_ID_MESSAGE)})
  }
}

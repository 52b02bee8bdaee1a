/**
 * The user-model helpers: the empty-email guard of create_user, the full
 * name of a user and the one-line form of an address.
 */
module Users {
  import opened Wrappers

  /** The ValueError create_user raises: 'Users must have an email address'. */
  datatype UserError = MissingEmail

  /** A user's stored name fields (first_name and last_name may be blank). */
  datatype User = User(email: string, firstName: string, lastName: string)

  /**
   * UserManager.create_user: an absent or empty email is refused; otherwise the
   * user is built with the normalised email and the given name fields.
   * `normalize` stands for the framework's normalize_email.
   */
  function CreateUser(email: Option<string>, firstName: string, lastName: string,
                      normalize: string -> string): (r: Result<User, UserError>)
    ensures r.Failure? <==> email == None || email == Some("")
    ensures r.Failure? ==> r.error == MissingEmail
    ensures r.Success? ==>
      r.value.email == normalize(email.value) && r.value.firstName == firstName && r.value.lastName == lastName
  {
    match email
    case None => Failure(MissingEmail)
    case Some(e) => if e == "" then Failure(MissingEmail) else Success(User(normalize(e), firstName, lastName))
  }

  /** User.get_full_name: the first name and the last name with one space between. */
  function FullName(u: User): (r: string)
    ensures |r| == |u.firstName| + 1 + |u.lastName|
    ensures r[..|u.firstName|] == u.firstName && r[|u.firstName|] == ' ' && r[|u.firstName| + 1..] == u.lastName
  {
    u.firstName + " " + u.lastName
  }

  /** Splits a string at its first space: what comes before and what comes after. */
  function SplitAtFirstSpace(s: string): (string, string)
  {
    if s == [] then ([], [])
    else if s[0] == ' ' then ([], s[1..])
    else
      var (before, after) := SplitAtFirstSpace(s[1..]);
      ([s[0]] + before, after)
  }

  /** A full name splits back into its parts when the first name has no space. */
  lemma {:induction false} FullNameSplitsBack(u: User)
    requires ' ' !in u.firstName
    ensures SplitAtFirstSpace(FullName(u)) == (u.firstName, u.lastName)
    decreases |u.firstName|
  {
    var f := u.firstName;
    if f == [] {
      assert FullName(u) == [' '] + u.lastName;
    } else {
      var rest := u.(firstName := f[1..]);
      assert FullName(u)[1..] == FullName(rest);
      FullNameSplitsBack(rest);
      assert [f[0]] + f[1..] == f;
    }
  }

  // ---------------------------------------------------------------------
  // Upper case and Address.__str__

  /** Upper case of one character: the ASCII and Latin-1 small letters, and the
      Turkish small dotless i, g with breve and s with cedilla. */
  function UpperChar(c: char): char
  {
    if 'a' <= c <= 'z' then (c as int - 32) as char
    else if '\U{00E0}' <= c <= '\U{00FE}' && c != '\U{00F7}' then (c as int - 32) as char
    else if c == '\U{0131}' then 'I'
    else if c == '\U{011F}' then '\U{011E}'
    else if c == '\U{015F}' then '\U{015E}'
    else c
  }

  /** str.upper, character by character. */
  function Upper(s: string): (r: string)
    ensures |r| == |s|
    ensures forall i :: 0 <= i < |s| ==> r[i] == UpperChar(s[i])
  {
    if s == [] then [] else [UpperChar(s[0])] + Upper(s[1..])
  }

  /** Upper case of a concatenation is the concatenation of the upper cases. */
  lemma {:induction false} UpperAppend(a: string, b: string)
    ensures Upper(a + b) == Upper(a) + Upper(b)
    decreases |a|
  {
    if a == [] {
      assert a + b == b;
    } else {
      assert (a + b)[1..] == a[1..] + b;
      UpperAppend(a[1..], b);
    }
  }

  /** Upper case is idempotent. */
  lemma {:induction false} UpperIdempotent(s: string)
    ensures Upper(Upper(s)) == Upper(s)
    decreases |s|
  {
    if s != [] {
      UpperIdempotent(s[1..]);
    }
  }

  /** The related rows an Address points to may have been deleted (SET_NULL). */
  datatype Address = Address(city: Option<string>, district: Option<string>,
                             neighborhood: Option<string>, extraInfo: string)

  /** The AttributeError raised when the district or the neighbourhood is gone. */
  datatype AddressError = MissingDistrict | MissingNeighborhood

  /** Address.__str__: district, neighbourhood and extra info, upper-cased and
      separated by single spaces. */
  function AddressText(a: Address): (r: Result<string, AddressError>)
    ensures r.Failure? <==> a.district.None? || a.neighborhood.None?
    ensures r.Failure? ==> r.error == (if a.district.None? then MissingDistrict else MissingNeighborhood)
  {
    match (a.district, a.neighborhood)
    case (None, _) => Failure(MissingDistrict)
    case (Some(_), None) => Failure(MissingNeighborhood)
    case (Some(d), Some(n)) => Success(Upper(d) + " " + Upper(n) + " " + Upper(a.extraInfo))
  }

  /** The text of an address is the upper case of the three parts joined by
      spaces, and it is already upper case. */
  lemma AddressTextIsUpperOfJoined(a: Address)
    requires a.district.Some? && a.neighborhood.Some?
    ensures AddressText(a) == Success(Upper(a.district.value + " " + a.neighborhood.value + " " + a.extraInfo))
    ensures Upper(AddressText(a).value) == AddressText(a).value
  {
    var d, n, e := a.district.value, a.neighborhood.value, a.extraInfo;
    assert Upper(" ") == " " by {
      assert " "[1..] == [];
    }
    UpperAppend(d, " ");
    UpperAppend(d + " ", n);
    UpperAppend(d + " " + n, " ");
    UpperAppend(d + " " + n + " ", e);
    UpperIdempotent(d + " " + n + " " + e);
  }
}

/** The users page: the roster of a tenant's users, its search and filters, the statistics cards
    and the add-user form, which puts the new user at the front of the roster. */
module Users {

  datatype Role = Student | Teacher | Admin

  datatype UserStatus = Active | Inactive | Invited

  /** One roster row. The id number is a roll number or an employee id. */
  datatype UserData = UserData(
    id: string, name: string, email: string, role: Role, idNumber: string,
    status: UserStatus, joinedDate: string, avatarColor: string)

  /** A filter select: everything, or exactly one value. */
  datatype Choice<T> = All | Only(value: T)

  /** The add-user form. The role select offers only the three roles. */
  datatype NewUserForm = NewUserForm(
    firstName: string, lastName: string, email: string, role: Role, idNumber: string)

  /** The form as it starts and as it is reset after an add. */
  const EmptyForm := NewUserForm("", "", "", Student, "")

  /** The roster the page starts with. */
  function MockUsers(): seq<UserData>
  {
    [ UserData("1", "Alice Freeman", "alice.f@college.edu", Student, "STU-2024-001", Active, "Dec 12, 2024", "bg-blue-100 text-blue-600"),
      UserData("2", "Robert Fox", "robert.fox@college.edu", Teacher, "FAC-092", Active, "Nov 20, 2024", "bg-orange-100 text-orange-600"),
      UserData("3", "Darlene Robertson", "darlene@college.edu", Student, "STU-2024-042", Inactive, "Dec 10, 2024", "bg-green-100 text-green-600"),
      UserData("4", "Jerome Bell", "jerome.b@college.edu", Admin, "ADM-001", Active, "Jan 15, 2023", "bg-purple-100 text-purple-600"),
      UserData("5", "Kathryn Murphy", "kathryn.m@college.edu", Student, "STU-2024-089", Invited, "-", "bg-pink-100 text-pink-600"),
      UserData("6", "Jacob Jones", "jacob.j@college.edu", Teacher, "FAC-103", Active, "Oct 05, 2024", "bg-teal-100 text-teal-600") ]
  }

  /** Lower-casing one character; only the ASCII capitals are folded. */
  function LowerChar(c: char): (d: char)
    ensures 'A' <= c <= 'Z' ==> d as int == c as int + 32
    ensures !('A' <= c <= 'Z') ==> d == c
    ensures !('A' <= d <= 'Z')
  {
    if 'A' <= c <= 'Z' then (c as int + 32) as char else c
  }

  /** Lower-casing a string, character by character. */
  function Lower(s: string): (t: string)
    ensures |t| == |s|
    ensures forall i :: 0 <= i < |s| ==> t[i] == LowerChar(s[i])
  {
    if s == [] then [] else [LowerChar(s[0])] + Lower(s[1..])
  }

  /** Lower-casing twice is lower-casing once. */
  lemma LowerIdempotent(s: string)
    ensures Lower(Lower(s)) == Lower(s)
  {
    var once := Lower(s);
    var twice := Lower(once);
    assert forall i :: 0 <= i < |s| ==> twice[i] == LowerChar(once[i]) == once[i];
  }

  /** Substring containment: sub occurs in s at some position. The empty string occurs in every
      string. */
  predicate Contains(s: string, sub: string)
  {
    exists i | 0 <= i <= |s| - |sub| :: OccursAt(s, sub, i)
  }

  /** sub occurs in s starting at position i. */
  predicate OccursAt(s: string, sub: string, i: int)
  {
    0 <= i <= |s| - |sub| && s[i..i + |sub|] == sub
  }

  /** The search box: the lower-cased query occurs in the lower-cased name, email or id number. */
  predicate MatchesSearch(u: UserData, query: string)
  {
    var q := Lower(query);
    Contains(Lower(u.name), q) || Contains(Lower(u.email), q) || Contains(Lower(u.idNumber), q)
  }

  predicate MatchesChoice<T(==)>(c: Choice<T>, v: T)
  {
    c == All || c == Only(v)
  }

  /** A row is shown when the search, the role filter and the status filter all accept it. */
  predicate Shown(u: UserData, query: string, roleFilter: Choice<Role>, statusFilter: Choice<UserStatus>)
  {
    MatchesSearch(u, query) && MatchesChoice(roleFilter, u.role) && MatchesChoice(statusFilter, u.status)
  }

  /** The rows shown: exactly the users the search and filters accept, each as often as it
      occurs in the roster, and never more rows than the roster has. */
  function FilterUsers(users: seq<UserData>, query: string, roleFilter: Choice<Role>, statusFilter: Choice<UserStatus>): (r: seq<UserData>)
    ensures |r| <= |users|
    ensures forall u :: u in r <==> u in users && Shown(u, query, roleFilter, statusFilter)
    ensures forall u :: multiset(r)[u] == if Shown(u, query, roleFilter, statusFilter) then multiset(users)[u] else 0
  {
    if users == [] then []
    else
      assert users == [users[0]] + users[1..];
      var rest := FilterUsers(users[1..], query, roleFilter, statusFilter);
      if Shown(users[0], query, roleFilter, statusFilter) then [users[0]] + rest else rest
  }

  /** r is s with some elements dropped, the rest in their original order. */
  predicate SubsequenceOf<T(==)>(r: seq<T>, s: seq<T>)
    decreases |s|
  {
    if r == [] then true
    else if s == [] then false
    else if r[0] == s[0] then SubsequenceOf(r[1..], s[1..])
    else SubsequenceOf(r, s[1..])
  }

  /** Filtering keeps the roster's order: the rows shown are a subsequence of the roster. */
  lemma {:induction false} FilterKeepsOrder(users: seq<UserData>, query: string, roleFilter: Choice<Role>, statusFilter: Choice<UserStatus>)
    ensures SubsequenceOf(FilterUsers(users, query, roleFilter, statusFilter), users)
    decreases |users|
  {
    if users != [] {
      FilterKeepsOrder(users[1..], query, roleFilter, statusFilter);
      var r := FilterUsers(users, query, roleFilter, statusFilter);
      if Shown(users[0], query, roleFilter, statusFilter) {
        assert r[1..] == FilterUsers(users[1..], query, roleFilter, statusFilter);
      }
    }
  }

  /** The empty query matches every user. */
  lemma EmptyQueryMatches(u: UserData)
    ensures MatchesSearch(u, "")
  {
    assert OccursAt(Lower(u.name), Lower(""), 0);
  }

  /** With an empty search and both filters on All, every user is shown, in order. */
  lemma {:induction false} NoFilterShowsAll(users: seq<UserData>)
    ensures FilterUsers(users, "", All, All) == users
    decreases |users|
  {
    if users != [] {
      EmptyQueryMatches(users[0]);
      NoFilterShowsAll(users[1..]);
      assert [users[0]] + users[1..] == users;
    }
  }

  /** The search ignores case: a query and its lower-cased form show the same rows. */
  lemma SearchIgnoresCase(u: UserData, query: string)
    ensures MatchesSearch(u, query) <==> MatchesSearch(u, Lower(query))
  {
    LowerIdempotent(query);
  }

  /** The number of users with a role: the statistics cards. */
  function CountRole(users: seq<UserData>, role: Role): (n: nat)
    ensures n <= |users|
  {
    if users == [] then 0 else (if users[0].role == role then 1 else 0) + CountRole(users[1..], role)
  }

  /** A role card counts exactly the rows the role filter alone would show. */
  lemma {:induction false} CountRoleIsRoleFilter(users: seq<UserData>, role: Role)
    ensures CountRole(users, role) == |FilterUsers(users, "", Only(role), All)|
    decreases |users|
  {
    if users != [] {
      EmptyQueryMatches(users[0]);
      CountRoleIsRoleFilter(users[1..], role);
    }
  }

  /** Every user has exactly one role, so the role counts add up to the total; in particular the
      Students and Teachers cards together never exceed the Total Users card. */
  lemma {:induction false} RoleCountsWithinTotal(users: seq<UserData>)
    ensures CountRole(users, Student) + CountRole(users, Teacher) + CountRole(users, Admin) == |users|
    decreases |users|
  {
    if users != [] {
      RoleCountsWithinTotal(users[1..]);
    }
  }

  /** The record an add creates: the full name joined by one space, the form's email, role and id
      number, invited, with no join date yet and the neutral avatar colour. The id is the clock
      reading, taken from outside. */
  function NewUserRecord(form: NewUserForm, id: string): (u: UserData)
    ensures u.id == id && u.email == form.email && u.role == form.role && u.idNumber == form.idNumber
    ensures u.name == form.firstName + [' '] + form.lastName
    ensures u.status == Invited && u.joinedDate == "-"
  {
    UserData(id, form.firstName + " " + form.lastName, form.email, form.role, form.idNumber,
             Invited, "-", "bg-gray-100 text-gray-600")
  }

  /** Adding a user raises exactly the count of that user's role, by one. */
  lemma AddUserCounts(users: seq<UserData>, u: UserData, role: Role)
    ensures CountRole([u] + users, role) == CountRole(users, role) + (if u.role == role then 1 else 0)
  {
    assert ([u] + users)[1..] == users;
  }

  /** The page's starting figures: six users, three students, two teachers. */
  lemma MockUsersFigures()
    ensures |MockUsers()| == 6
    ensures CountRole(MockUsers(), Student) == 3 && CountRole(MockUsers(), Teacher) == 2
  {
  }

  class UserRoster {
    var users: seq<UserData>
    var searchQuery: string
    var roleFilter: Choice<Role>
    var statusFilter: Choice<UserStatus>
    var isAddUserOpen: bool
    var isImportOpen: bool
    var newUser: NewUserForm

    constructor ()
      ensures users == MockUsers() && searchQuery == "" && roleFilter == All && statusFilter == All
      ensures !isAddUserOpen && !isImportOpen && newUser == EmptyForm
    {
      users := MockUsers();
      searchQuery, roleFilter, statusFilter := "", All, All;
      isAddUserOpen, isImportOpen := false, false;
      newUser := EmptyForm;
    }

    /** The rows the table shows. */
    function Visible(): seq<UserData>
      reads this
    {
      FilterUsers(users, searchQuery, roleFilter, statusFilter)
    }

    /** The statistics cards and the footer: "showing s of t users", and the role cards. */
    method Figures() returns (total: nat, students: nat, teachers: nat, showing: nat)
      ensures total == |users| && showing == |Visible()| && showing <= total
      ensures students == CountRole(users, Student) && teachers == CountRole(users, Teacher)
      ensures students + teachers <= total
    {
      RoleCountsWithinTotal(users);
      total := |users|;
      students := CountRole(users, Student);
      teachers := CountRole(users, Teacher);
      showing := |Visible()|;
    }

    method SetSearchQuery(q: string)
      modifies this`searchQuery
      ensures searchQuery == q
    {
      searchQuery := q;
    }

    method SetRoleFilter(c: Choice<Role>)
      modifies this`roleFilter
      ensures roleFilter == c
    {
      roleFilter := c;
    }

    method SetStatusFilter(c: Choice<UserStatus>)
      modifies this`statusFilter
      ensures statusFilter == c
    {
      statusFilter := c;
    }

    method OpenAddUser()
      modifies this`isAddUserOpen
      ensures isAddUserOpen
    {
      isAddUserOpen := true;
    }

    /** Cancel or dismiss: the modal closes and the form keeps what was typed. */
    method CloseAddUser()
      modifies this`isAddUserOpen
      ensures !isAddUserOpen
    {
      isAddUserOpen := false;
    }

    method EditNewUser(form: NewUserForm)
      modifies this`newUser
      ensures newUser == form
    {
      newUser := form;
    }

    /** Create User: the new record goes in front of the roster, every older user follows in the
        same order, the modal closes and the form is reset. Nothing is validated. */
    method HandleAddUser(id: string)
      modifies this`users, this`isAddUserOpen, this`newUser
      ensures users == [NewUserRecord(old(newUser), id)] + old(users)
      ensures |users| == |old(users)| + 1 && users[1..] == old(users)
      ensures !isAddUserOpen && newUser == EmptyForm
    {
      users := [NewUserRecord(newUser, id)] + users;
      isAddUserOpen := false;
      newUser := EmptyForm;
    }

    method OpenImport()
      modifies this`isImportOpen
      ensures isImportOpen
    {
      isImportOpen := true;
    }

    /** Cancel and Start Import both only close the import modal. */
    method CloseImport()
      modifies this`isImportOpen
      ensures !isImportOpen
    {
      isImportOpen := false;
    }
  }
}

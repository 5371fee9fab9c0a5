/**
 * The user list of the system screen (`UserList`): a table of accounts with a
 * case-insensitive search over name and e-mail, deletion after a confirmation,
 * and one modal that both creates and edits an account.
 */
module Users {
  import opened Options
  import opened Seqs
  import opened Text
  import opened Ui

  datatype User = User(id: int, name: string, email: string, role: string, status: string, lastLogin: string)

  function UserId(u: User): int { u.id }

  /** The last-login text of an account that has never signed in. */
  const NeverLoggedIn: string := "-"

  /** A user matches a search term when its lower-cased name or e-mail contains the lower-cased term. */
  predicate Matches(u: User, term: string) {
    Includes(Lower(u.name), Lower(term)) || Includes(Lower(u.email), Lower(term))
  }

  function MatchesTerm(term: string): User -> bool {
    u => Matches(u, term)
  }

  /** `filteredUsers`: the users the search term matches, in table order. */
  function FilteredUsers(users: seq<User>, term: string): (r: seq<User>)
    ensures forall u :: u in r <==> u in users && Matches(u, term)
    ensures IsSubseq(r, users)
    ensures term == "" ==> r == users
  {
    FilterIsSubseq(users, MatchesTerm(term));
    if term == "" then
      forall i | 0 <= i < |users| ensures Matches(users[i], term) {
        IncludesEmpty(Lower(users[i].name));
      }
      FilterKeepsAll(users, MatchesTerm(term));
      Filter(users, MatchesTerm(term))
    else
      Filter(users, MatchesTerm(term))
  }

  /** The search ignores the case of the term: a term and its lower-cased form select the same users. */
  lemma SearchIgnoresCase(users: seq<User>, term: string)
    ensures FilteredUsers(users, Lower(term)) == FilteredUsers(users, term)
  {
    LowerIdempotent(term);
    FilterCongruent(users, MatchesTerm(Lower(term)), MatchesTerm(term));
  }

  /** The status cell: 活跃 for an active account, 停用 for any other status. */
  function StatusLabel(status: string): (r: string)
    ensures r == "活跃" <==> status == "active"
    ensures r == "活跃" || r == "停用"
  {
    if status == "active" then "活跃" else "停用"
  }

  /** The role badge is highlighted for system administrators only. */
  function RoleVariant(role: string): (v: Variant)
    ensures v == Primary <==> role == "系统管理员"
    ensures v == Primary || v == Secondary
  {
    if role == "系统管理员" then Primary else Secondary
  }

  class UserList {
    var users: seq<User>
    var searchTerm: string
    var isModalOpen: bool
    var editingUser: Option<User>

    /** User ids are unique. */
    ghost predicate Valid()
      reads this
    {
      UniqueKeys(users, UserId)
    }

    constructor (initial: seq<User>)
      requires UniqueKeys(initial, UserId)
      ensures Valid()
      ensures users == initial && searchTerm == "" && !isModalOpen && editingUser == None
    {
      users := initial;
      searchTerm := "";
      isModalOpen := false;
      editingUser := None;
    }

    /** The rows the table shows. */
    function Visible(): (r: seq<User>)
      reads this
      ensures forall u :: u in r <==> u in users && Matches(u, searchTerm)
    {
      FilteredUsers(users, searchTerm)
    }

    method SetSearchTerm(term: string)
      requires Valid()
      modifies this`searchTerm
      ensures Valid() && searchTerm == term
    {
      searchTerm := term;
    }

    /**
     * `handleDelete`: when the confirmation dialog (`window.confirm`, given as
     * `confirmed`) is declined nothing changes; otherwise the users with that id are
     * removed and the rest keep their order.
     */
    method Delete(id: int, confirmed: bool)
      requires Valid()
      modifies this`users
      ensures Valid()
      ensures !confirmed ==> users == old(users)
      ensures confirmed ==> users == WithoutKey(old(users), UserId, id)
      ensures confirmed ==> !HasKey(users, UserId, id) && IsSubseq(users, old(users))
    {
      if confirmed {
        WithoutKeyKeepsUnique(users, UserId, id);
        users := WithoutKey(users, UserId, id);
      }
    }

    /** The add button: the modal opens on a new account. */
    method OpenCreate()
      requires Valid()
      modifies this`editingUser, this`isModalOpen
      ensures Valid() && editingUser == None && isModalOpen
    {
      editingUser := None;
      isModalOpen := true;
    }

    /** The edit button of a row: the modal opens on that account. */
    method OpenEdit(u: User)
      requires Valid()
      modifies this`editingUser, this`isModalOpen
      ensures Valid() && editingUser == Some(u) && isModalOpen
    {
      editingUser := Some(u);
      isModalOpen := true;
    }

    /** The modal's close button; the account being edited stays remembered. */
    method CloseModal()
      requires Valid()
      modifies this`isModalOpen
      ensures Valid() && !isModalOpen
    {
      isModalOpen := false;
    }

    /**
     * `handleSaveUser`: editing replaces the account with the edited id in place,
     * keeping its id and last login; creating appends an account that has never
     * logged in under the supplied fresh id (`Date.now()`). The modal then closes
     * and nothing is being edited.
     */
    method SaveUser(name: string, email: string, role: string, status: string, freshId: int)
      requires Valid()
      requires editingUser.None? ==> !HasKey(users, UserId, freshId)
      modifies this`users, this`isModalOpen, this`editingUser
      ensures Valid()
      ensures !isModalOpen && editingUser == None
      ensures old(editingUser).Some? ==>
                var e := old(editingUser).value;
                users == ReplaceKey(old(users), UserId, e.id, User(e.id, name, email, role, status, e.lastLogin))
      ensures old(editingUser).None? ==>
                users == old(users) + [User(freshId, name, email, role, status, NeverLoggedIn)]
    {
      if editingUser.Some? {
        var e := editingUser.value;
        var updated := User(e.id, name, email, role, status, e.lastLogin);
        MapKeyKeepsKeys(users, UserId, e.id, _ => updated);
        users := ReplaceKey(users, UserId, e.id, updated);
      } else {
        var created := User(freshId, name, email, role, status, NeverLoggedIn);
        AppendFreshKeepsUnique(users, UserId, created);
        users := users + [created];
      }
      isModalOpen := false;
      editingUser := None;
    }
  }

  /**
   * Saving an edit keeps the number of accounts and every other account, and the
   * edited account keeps its id and last login.
   */
  lemma SaveEditReplacesInPlace(users: seq<User>, e: User, name: string, email: string, role: string, status: string)
    requires UniqueKeys(users, UserId) && HasKey(users, UserId, e.id)
    ensures var r := ReplaceKey(users, UserId, e.id, User(e.id, name, email, role, status, e.lastLogin));
            && |r| == |users|
            && (forall i :: 0 <= i < |users| && users[i].id != e.id ==> r[i] == users[i])
            && (exists i :: 0 <= i < |users| && users[i].id == e.id && r[i].id == e.id && r[i].lastLogin == e.lastLogin)
            && UniqueKeys(r, UserId)
  {
    MapKeyKeepsKeys(users, UserId, e.id, _ => User(e.id, name, email, role, status, e.lastLogin));
  }
}

/** The staff screen (components/ProfessionalManager.tsx): an in-memory list
    of users seeded with the mock roster, a modal form that edits or creates
    a user, deletion after confirmation, and a search by name or specialty. */
module ProfessionalManager {
  import opened Optional
  import opened Types
  import opened Seqs
  import opened Text
  import C = Constants

  /** The modal form fields. */
  datatype ProfessionalForm = ProfessionalForm(name: string, email: string, specialty: string, role: UserRole)

  /** The screen state. */
  datatype Screen = Screen(
    users: seq<User>,
    searchTerm: string,
    modalOpen: bool,
    editing: Option<User>,
    form: ProfessionalForm)

  const BlankForm: ProfessionalForm := ProfessionalForm("", "", "", Professional)

  const Start: Screen := Screen(C.MockProfessionals, "", false, None, BlankForm)

  /** `handleOpenModal`: with a user, the form is prefilled from it (a missing
      specialty as ""); without one, the form is blank with role PROFESSIONAL. */
  function OpenModal(s: Screen, user: Option<User>): (r: Screen)
    ensures r.modalOpen && r.editing == user
    ensures r.users == s.users && r.searchTerm == s.searchTerm
    ensures user.None? ==> r.form.name == "" && r.form.email == "" && r.form.specialty == "" && r.form.role == Professional
    ensures user.Some? ==>
      && r.form.name == user.value.name
      && r.form.email == user.value.email
      && r.form.role == user.value.role
      && r.form.specialty == user.value.specialty.GetOr("")
  {
    match user
    case Some(u) =>
      s.(modalOpen := true, editing := user,
         form := ProfessionalForm(u.name, u.email, OptOrElse(u.specialty, ""), u.role))
    case None =>
      s.(modalOpen := true, editing := None, form := BlankForm)
  }

  /** `handleCloseModal`: the modal closes and forgets the edited user; the
      form keeps its fields. */
  function CloseModal(s: Screen): (r: Screen)
    ensures !r.modalOpen && r.editing.None?
    ensures r.users == s.users && r.form == s.form && r.searchTerm == s.searchTerm
  {
    s.(modalOpen := false, editing := None)
  }

  /** The update branch of `handleSubmit`: `{...u, ...formData}` on every
      user whose id is the edited one. */
  function ApplyEdit(users: seq<User>, id: string, form: ProfessionalForm): (r: seq<User>)
    ensures |r| == |users|
    ensures forall i :: 0 <= i < |users| && users[i].id != id ==> r[i] == users[i]
    ensures forall i :: 0 <= i < |users| && users[i].id == id ==>
      && r[i].id == id
      && r[i].avatarUrl == users[i].avatarUrl
      && r[i].name == form.name
      && r[i].email == form.email
      && r[i].specialty == Some(form.specialty)
      && r[i].role == form.role
  {
    seq(|users|, i requires 0 <= i < |users| =>
      if users[i].id == id then
        users[i].(name := form.name, email := form.email, specialty := Some(form.specialty), role := form.role)
      else
        users[i])
  }

  /** The avatar service URL for a new user; `encode` is `encodeURIComponent`. */
  function AvatarUrl(name: string, encode: string -> string): string {
    "https://ui-avatars.com/api/?name=" + encode(name) + "&background=FADADD&color=fff"
  }

  /** `handleSubmit`, given the id `u${Date.now()}` for a new user: update
      when editing, append otherwise, then close the modal. */
  function Submit(s: Screen, newId: string, encode: string -> string): (r: Screen)
    ensures !r.modalOpen && r.editing.None?
    ensures s.editing.Some? ==> r.users == ApplyEdit(s.users, s.editing.value.id, s.form)
    ensures s.editing.None? ==> |r.users| == |s.users| + 1 && r.users[..|s.users|] == s.users
    ensures s.editing.None? ==>
      && r.users[|s.users|].id == newId
      && r.users[|s.users|].name == s.form.name
      && r.users[|s.users|].email == s.form.email
      && r.users[|s.users|].role == s.form.role
      && r.users[|s.users|].specialty == Some(s.form.specialty)
      && r.users[|s.users|].avatarUrl == Some(AvatarUrl(s.form.name, encode))
  {
    var users := match s.editing
      case Some(u) => ApplyEdit(s.users, u.id, s.form)
      case None =>
        s.users + [User(newId, s.form.name, s.form.email, s.form.role,
                        Some(AvatarUrl(s.form.name, encode)), Some(s.form.specialty))];
    CloseModal(s.(users := users))
  }

  /** `handleDelete`, given the answer to the confirmation dialog. */
  function Delete(users: seq<User>, id: string, confirmed: bool): (r: seq<User>)
    ensures !confirmed ==> r == users
    ensures confirmed ==> forall i :: 0 <= i < |r| ==> r[i].id != id && r[i] in users
    ensures confirmed ==> forall i :: 0 <= i < |users| && users[i].id != id ==> users[i] in r
  {
    if confirmed then Filter(users, (u: User) => u.id != id) else users
  }

  /** Deleting keeps every other user as many times as it was listed. */
  lemma DeleteKeepsOthers(users: seq<User>, id: string, other: User)
    requires other.id != id
    ensures multiset(Delete(users, id, true))[other] == multiset(users)[other]
  {
    FilterCounts(users, (u: User) => u.id != id, other);
  }

  /** Deleting from a list split in two deletes from each part and keeps
      the parts in order, so the remaining users keep their order. */
  lemma DeleteKeepsOrder(a: seq<User>, b: seq<User>, id: string)
    ensures Delete(a + b, id, true) == Delete(a, id, true) + Delete(b, id, true)
  {
    FilterAppend(a, b, (u: User) => u.id != id);
  }

  /** Deleting the id of a user no other user shares removes exactly that
      position. */
  lemma DeleteUnique(users: seq<User>, k: nat)
    requires k < |users|
    requires forall j :: 0 <= j < |users| && j != k ==> users[j].id != users[k].id
    ensures Delete(users, users[k].id, true) == users[..k] + users[k + 1..]
  {
    var keep := (u: User) => u.id != users[k].id;
    var before, after := users[..k], users[k + 1..];
    assert users == before + [users[k]] + after;
    assert forall i :: 0 <= i < |before| ==> keep(before[i]);
    assert forall i :: 0 <= i < |after| ==> keep(after[i]);
    calc {
      Filter(users, keep);
    == { FilterAppend(before + [users[k]], after, keep); FilterAppend(before, [users[k]], keep); }
      Filter(before, keep) + Filter([users[k]], keep) + Filter(after, keep);
    == { FilterKeepsAll(before, keep); FilterKeepsAll(after, keep); FilterRejectsSingle(users[k], keep); }
      before + [] + after;
    == { assert before + [] == before; }
      before + after;
    }
  }

  /** Creating a user with a fresh id and then deleting that id gives the
      original list back, in the original order. */
  lemma CreateThenDelete(s: Screen, newId: string, encode: string -> string)
    requires s.editing.None?
    requires forall i :: 0 <= i < |s.users| ==> s.users[i].id != newId
    ensures Delete(Submit(s, newId, encode).users, newId, true) == s.users
  {
    var users := Submit(s, newId, encode).users;
    var keep := (u: User) => u.id != newId;
    assert users == s.users + [users[|s.users|]];
    FilterAppend(s.users, [users[|s.users|]], keep);
    FilterKeepsAll(s.users, keep);
    assert Filter([users[|s.users|]], keep) == [];
  }

  /** Editing twice with the same form is the same as editing once. */
  lemma ApplyEditIdempotent(users: seq<User>, id: string, form: ProfessionalForm)
    ensures ApplyEdit(ApplyEdit(users, id, form), id, form) == ApplyEdit(users, id, form)
  {
  }

  /** The search test: the lower-cased name or the lower-cased specialty
      includes the lower-cased term; a user without specialty matches by name only. */
  predicate Matches(u: User, term: string) {
    || Includes(Lower(u.name), Lower(term))
    || (u.specialty.Some? && Includes(Lower(u.specialty.value), Lower(term)))
  }

  /** `filteredUsers`: the users that match, in list order. */
  function FilteredUsers(users: seq<User>, term: string): (r: seq<User>)
    ensures forall i :: 0 <= i < |r| ==> Matches(r[i], term) && r[i] in users
    ensures forall i :: 0 <= i < |users| && Matches(users[i], term) ==> users[i] in r
  {
    Filter(users, (u: User) => Matches(u, term))
  }

  /** Searching two consecutive parts of the list searches each part and
      keeps them in order, so the result keeps the list order. */
  lemma SearchKeepsOrder(a: seq<User>, b: seq<User>, term: string)
    ensures FilteredUsers(a + b, term) == FilteredUsers(a, term) + FilteredUsers(b, term)
  {
    FilterAppend(a, b, (u: User) => Matches(u, term));
  }

  /** A matching entry is listed as many times as the list holds it, and
      a non-matching one not at all. */
  lemma SearchKeepsCopies(users: seq<User>, term: string, x: User)
    ensures multiset(FilteredUsers(users, term))[x] == if Matches(x, term) then multiset(users)[x] else 0
  {
    if Matches(x, term) {
      FilterCounts(users, (u: User) => Matches(u, term), x);
    } else {
      assert x !in FilteredUsers(users, term);
    }
  }

  /** An empty search term lists everyone. */
  lemma EmptySearchListsAll(users: seq<User>)
    ensures FilteredUsers(users, "") == users
  {
    forall i | 0 <= i < |users|
      ensures Matches(users[i], "")
    {
      IncludesEmpty(Lower(users[i].name));
    }
    FilterKeepsAll(users, (u: User) => Matches(u, ""));
  }

  /** The search ignores the case of the term. */
  lemma SearchIgnoresCase(users: seq<User>, term: string)
    ensures FilteredUsers(users, term) == FilteredUsers(users, Lower(term))
  {
    LowerIdempotent(term);
    FilterCongruent(users, (u: User) => Matches(u, term), (u: User) => Matches(u, Lower(term)));
  }
}

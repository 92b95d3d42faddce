/** `UserListScreen`: the search filter, the grouping of contacts under
    their initial letter, and the choice of what the list area shows. */
module UserList {
  import opened Wrappers
  import opened Text
  import opened Models
  import ViewModel

  const NoContacts := "No hay contactos registrados"
  const NoMatches := "No se encontraron contactos"

  /** The search predicate: the query occurs, ignoring case, in the name,
      the e-mail or the phone. */
  predicate Matches(u: User, query: string)
    ensures Matches(u, query) <==> OccursIn(u.name, query) || OccursIn(u.email, query) || OccursIn(u.phone, query)
  {
    ContainsIgnoreCaseIffOccurs(u.name, query);
    ContainsIgnoreCaseIffOccurs(u.email, query);
    ContainsIgnoreCaseIffOccurs(u.phone, query);
    ContainsIgnoreCase(u.name, query) || ContainsIgnoreCase(u.email, query)
    || ContainsIgnoreCase(u.phone, query)
  }

  /** `users.filter { ... }`. */
  function FilterUsers(users: seq<User>, query: string): (r: seq<User>)
    ensures |r| <= |users|
    ensures forall u :: u in r <==> u in users && Matches(u, query)
  {
    if users == [] then []
    else
      var rest := FilterUsers(users[..|users| - 1], query);
      var u := users[|users| - 1];
      assert users == users[..|users| - 1] + [u];
      if Matches(u, query) then rest + [u] else rest
  }

  /** `idx` lists positions of a sequence of length `n` in increasing order. */
  predicate Increasing(idx: seq<nat>, n: nat) {
    (forall k :: 0 <= k < |idx| ==> idx[k] < n)
    && (forall k, l :: 0 <= k < l < |idx| ==> idx[k] < idx[l])
  }

  /** `r` is `users` read at the increasing positions `idx`, which are
      exactly the positions of the users matching `query`. */
  ghost predicate PicksMatches(users: seq<User>, query: string, r: seq<User>, idx: seq<nat>) {
    Increasing(idx, |users|) && |idx| == |r|
    && (forall k :: 0 <= k < |r| ==> r[k] == users[idx[k]] && Matches(r[k], query))
    && (forall i :: 0 <= i < |users| && Matches(users[i], query) ==> i in idx)
  }

  /** The filtered list is the matching users, in their original order. */
  lemma {:induction false} FilterKeepsMatchesInOrder(users: seq<User>, query: string)
    ensures exists idx: seq<nat> :: PicksMatches(users, query, FilterUsers(users, query), idx)
  {
    if users == [] {
      var idx: seq<nat> := [];
      assert PicksMatches(users, query, FilterUsers(users, query), idx);
    } else {
      var n := |users| - 1;
      FilterKeepsMatchesInOrder(users[..n], query);
      var idx: seq<nat> :| PicksMatches(users[..n], query, FilterUsers(users[..n], query), idx);
      var idx' := PicksOneMore(users, query, FilterUsers(users[..n], query), idx);
    }
  }

  lemma PicksOneMore(users: seq<User>, query: string, r0: seq<User>, idx: seq<nat>) returns (idx': seq<nat>)
    requires users != [] && PicksMatches(users[..|users| - 1], query, r0, idx)
    requires r0 == FilterUsers(users[..|users| - 1], query)
    ensures PicksMatches(users, query, FilterUsers(users, query), idx')
  {
    var n := |users| - 1;
    if Matches(users[n], query) {
      assert FilterUsers(users, query) == r0 + [users[n]];
      idx' := idx + [n];
      PicksKept(users, query, r0, idx);
    } else {
      assert FilterUsers(users, query) == r0;
      idx' := idx;
      PicksSkipped(users, query, r0, idx);
    }
  }

  lemma PicksKept(users: seq<User>, query: string, r0: seq<User>, idx: seq<nat>)
    requires users != [] && PicksMatches(users[..|users| - 1], query, r0, idx)
    requires Matches(users[|users| - 1], query)
    ensures PicksMatches(users, query, r0 + [users[|users| - 1]], idx + [|users| - 1])
  {
    var n := |users| - 1;
    var init := users[..n];
    var r, idx' := r0 + [users[n]], idx + [n];
    assert Increasing(idx', |users|);
    forall k | 0 <= k < |r| ensures r[k] == users[idx'[k]] && Matches(r[k], query) {
      if k < |r0| { assert users[idx[k]] == init[idx[k]]; }
    }
    forall i | 0 <= i < |users| && Matches(users[i], query) ensures i in idx' {
      if i < n { assert users[i] == init[i]; }
    }
  }

  lemma PicksSkipped(users: seq<User>, query: string, r0: seq<User>, idx: seq<nat>)
    requires users != [] && PicksMatches(users[..|users| - 1], query, r0, idx)
    requires !Matches(users[|users| - 1], query)
    ensures PicksMatches(users, query, r0, idx)
  {
    var init := users[..|users| - 1];
    forall k | 0 <= k < |r0| ensures r0[k] == users[idx[k]] {
      assert users[idx[k]] == init[idx[k]];
    }
    forall i | 0 <= i < |users| && Matches(users[i], query) ensures i in idx {
      assert users[i] == init[i];
    }
  }

  /** An empty query keeps every user. */
  lemma {:induction false} EmptyQueryKeepsAll(users: seq<User>)
    ensures FilterUsers(users, "") == users
  {
    if users != [] {
      EmptyQueryKeepsAll(users[..|users| - 1]);
      EmptyOccursEverywhere(users[|users| - 1].name);
      assert users[..|users| - 1] + [users[|users| - 1]] == users;
    }
  }

  // ---------------------------------------------------------------------
  // groupBy { it.name.first().uppercaseChar() }.toSortedMap()

  predicate NamesNonEmpty(users: seq<User>) {
    forall u :: u in users ==> |u.name| > 0
  }

  /** The letter a contact is listed under: the name's first character,
      upper-cased, so never a lower-case letter and equal to that character
      ignoring case. `first()` needs a non-empty name. */
  function GroupKey(u: User): (k: char)
    requires |u.name| > 0
    ensures !('a' <= k <= 'z')
    ensures CharEqualsIgnoreCase(k, u.name[0])
    ensures !('a' <= u.name[0] <= 'z') ==> k == u.name[0]
  {
    UpperChar(u.name[0])
  }

  /** The users listed under `k`, in list order (the reference definition). */
  function UsersWithKey(users: seq<User>, k: char): seq<User>
    requires NamesNonEmpty(users)
  {
    if users == [] then []
    else
      var u := users[|users| - 1];
      UsersWithKey(users[..|users| - 1], k) + if GroupKey(u) == k then [u] else []
  }

  /** One entry of the sorted map: a letter and its contacts. */
  datatype Group = Group(key: char, members: seq<User>)

  predicate KeysAscending(gs: seq<Group>) {
    forall i, j :: 0 <= i < j < |gs| ==> gs[i].key < gs[j].key
  }

  /** The contacts under `k`, or none when `k` has no entry. */
  function Lookup(gs: seq<Group>, k: char): seq<User> {
    if gs == [] then []
    else if gs[0].key == k then gs[0].members
    else Lookup(gs[1..], k)
  }

  function KeySet(gs: seq<Group>): set<char> {
    set i | 0 <= i < |gs| :: gs[i].key
  }

  predicate NoEmptyGroup(gs: seq<Group>) {
    forall i :: 0 <= i < |gs| ==> gs[i].members != []
  }

  /** Adds one contact after those already under its letter, creating the
      letter's entry in its sorted place when it is new. */
  function Insert(gs: seq<Group>, u: User): seq<Group>
    requires |u.name| > 0
  {
    var k := GroupKey(u);
    if gs == [] then [Group(k, [u])]
    else if gs[0].key == k then [gs[0].(members := gs[0].members + [u])] + gs[1..]
    else if k < gs[0].key then [Group(k, [u])] + gs
    else [gs[0]] + Insert(gs[1..], u)
  }

  lemma {:induction false} InsertKeySet(gs: seq<Group>, u: User)
    requires |u.name| > 0
    ensures KeySet(Insert(gs, u)) == KeySet(gs) + {GroupKey(u)}
  {
    var k := GroupKey(u);
    var r := Insert(gs, u);
    if gs == [] {
      assert r[0].key == k;
    } else {
      KeySetCons(gs[0], gs[1..]);
      assert [gs[0]] + gs[1..] == gs;
      if gs[0].key == k {
        KeySetCons(r[0], gs[1..]);
      } else if k < gs[0].key {
        KeySetCons(Group(k, [u]), gs);
      } else {
        InsertKeySet(gs[1..], u);
        KeySetCons(gs[0], Insert(gs[1..], u));
      }
    }
  }

  /** Inserting keeps the letters strictly ascending. */
  lemma {:induction false} InsertAscending(gs: seq<Group>, u: User)
    requires |u.name| > 0 && KeysAscending(gs)
    ensures KeysAscending(Insert(gs, u))
  {
    var k := GroupKey(u);
    if gs != [] && gs[0].key != k && !(k < gs[0].key) {
      var tail := Insert(gs[1..], u);
      InsertAscending(gs[1..], u);
      InsertKeySet(gs[1..], u);
      var r := [gs[0]] + tail;
      forall i, j | 0 <= i < j < |r| ensures r[i].key < r[j].key {
        if i == 0 {
          assert r[j] == tail[j - 1];
          assert r[j].key in KeySet(tail);
          if r[j].key != k {
            assert r[j].key in KeySet(gs[1..]);
            var m :| 0 <= m < |gs[1..]| && gs[1..][m].key == r[j].key;
            assert gs[0].key < gs[m + 1].key;
          }
        }
      }
    }
  }

  lemma {:induction false} InsertNoEmptyGroup(gs: seq<Group>, u: User)
    requires |u.name| > 0 && NoEmptyGroup(gs)
    ensures NoEmptyGroup(Insert(gs, u))
  {
    if gs != [] && gs[0].key != GroupKey(u) && !(GroupKey(u) < gs[0].key) {
      InsertNoEmptyGroup(gs[1..], u);
    }
  }

  /** Inserting appends the contact to its own letter and to no other. */
  lemma {:induction false} InsertLookup(gs: seq<Group>, u: User, c: char)
    requires |u.name| > 0 && KeysAscending(gs)
    ensures Lookup(Insert(gs, u), c) == Lookup(gs, c) + if c == GroupKey(u) then [u] else []
  {
    var k := GroupKey(u);
    var r := Insert(gs, u);
    if gs != [] {
      if gs[0].key == k {
        assert r[1..] == gs[1..];
      } else if k < gs[0].key {
        assert r[1..] == gs;
        if c == k { LookupBelowFirst(gs, k); }
      } else {
        assert r[1..] == Insert(gs[1..], u);
        InsertLookup(gs[1..], u, c);
      }
    }
  }

  lemma KeySetCons(g: Group, gs: seq<Group>)
    ensures KeySet([g] + gs) == {g.key} + KeySet(gs)
  {
    var r := [g] + gs;
    forall c | c in KeySet(r) ensures c in {g.key} + KeySet(gs) {
      var i :| 0 <= i < |r| && r[i].key == c;
      if i > 0 { assert gs[i - 1].key == c; }
    }
    forall c | c in KeySet(gs) ensures c in KeySet(r) {
      var i :| 0 <= i < |gs| && gs[i].key == c;
      assert r[i + 1].key == c;
    }
    assert r[0].key == g.key;
  }

  lemma {:induction false} LookupBelowFirst(gs: seq<Group>, k: char)
    requires KeysAscending(gs) && gs != [] && k < gs[0].key
    ensures Lookup(gs, k) == []
  {
    if |gs| > 1 {
      assert gs[0].key < gs[1].key;
      assert KeysAscending(gs[1..]);
      LookupBelowFirst(gs[1..], k);
    }
  }

  /** The grouped contacts: entries in strictly ascending letter order, none
      empty, one per initial letter present, each listing exactly the users
      under that letter in filtered-list order. */
  function GroupUsers(users: seq<User>): (gs: seq<Group>)
    requires NamesNonEmpty(users)
    ensures KeysAscending(gs) && NoEmptyGroup(gs)
    ensures KeySet(gs) == set u | u in users :: GroupKey(u)
    ensures forall k :: Lookup(gs, k) == UsersWithKey(users, k)
  {
    if users == [] then []
    else
      var init := users[..|users| - 1];
      var u := users[|users| - 1];
      assert forall v :: v in init ==> v in users;
      var prev := GroupUsers(init);
      var gs := Insert(prev, u);
      InsertKeySet(prev, u);
      InsertAscending(prev, u);
      InsertNoEmptyGroup(prev, u);
      forall c ensures Lookup(gs, c) == UsersWithKey(users, c) {
        InsertLookup(prev, u, c);
      }
      assert users == init + [u];
      assert (set v | v in users :: GroupKey(v)) == (set v | v in init :: GroupKey(v)) + {GroupKey(u)};
      gs
  }

  lemma {:induction false} LookupAt(gs: seq<Group>, i: nat)
    requires KeysAscending(gs) && i < |gs|
    ensures Lookup(gs, gs[i].key) == gs[i].members
  {
    if i > 0 {
      assert gs[0].key < gs[i].key;
      LookupAt(gs[1..], i - 1);
    }
  }

  lemma {:induction false} UsersWithKeyMembers(users: seq<User>, k: char, u: User)
    requires NamesNonEmpty(users)
    ensures u in UsersWithKey(users, k) <==> u in users && GroupKey(u) == k
  {
    if users != [] {
      var init := users[..|users| - 1];
      UsersWithKeyMembers(init, k, u);
      assert users == init + [users[|users| - 1]];
    }
  }

  /** Every listed contact appears under exactly one letter: its own. */
  lemma EachUserInOneGroup(users: seq<User>, u: User)
    requires NamesNonEmpty(users) && u in users
    ensures exists i :: 0 <= i < |GroupUsers(users)| && GroupUsers(users)[i].key == GroupKey(u)
    ensures forall i :: 0 <= i < |GroupUsers(users)| ==>
      (u in GroupUsers(users)[i].members <==> GroupUsers(users)[i].key == GroupKey(u))
  {
    var gs := GroupUsers(users);
    assert GroupKey(u) in KeySet(gs);
    var j :| 0 <= j < |gs| && gs[j].key == GroupKey(u);
    assert exists i :: 0 <= i < |gs| && gs[i].key == GroupKey(u);
    forall i | 0 <= i < |gs| ensures u in gs[i].members <==> gs[i].key == GroupKey(u) {
      LookupAt(gs, i);
      UsersWithKeyMembers(users, gs[i].key, u);
    }
  }

  // ---------------------------------------------------------------------
  // What the list area shows

  datatype ListView =
    | Spinner
    | ErrorWithRetry(message: string)
    | EmptyMessage(text: string)
    | GroupedList(groups: seq<Group>)

  /** The `when` of the list area, in its order of priority. The grouping is
      computed on every composition, so every filtered name must be non-empty. */
  function ListViewFor(users: seq<User>, isLoading: bool, error: Option<string>, query: string): (v: ListView)
    requires NamesNonEmpty(FilterUsers(users, query))
    ensures v.Spinner? <==> isLoading && users == []
    ensures v.ErrorWithRetry? <==> !isLoading && error.Some? && users == []
    ensures v.ErrorWithRetry? ==> v.message == error.value
    ensures v.EmptyMessage? <==> !(users == [] && (isLoading || error.Some?)) && FilterUsers(users, query) == []
    ensures v.EmptyMessage? ==> v.text == if query == "" then NoContacts else NoMatches
    ensures v.GroupedList? ==> v.groups == GroupUsers(FilterUsers(users, query)) && v.groups != []
  {
    var filtered := FilterUsers(users, query);
    var grouped := GroupUsers(filtered);
    if isLoading && users == [] then Spinner
    else if error.Some? && users == [] then ErrorWithRetry(error.GetOr(ViewModel.UnknownError))
    else if filtered == [] then EmptyMessage(if query == "" then NoContacts else NoMatches)
    else
      assert filtered[0] in filtered;
      assert GroupKey(filtered[0]) in KeySet(grouped);
      GroupedList(grouped)
  }

  /** Loading and errors only ever replace an empty list; with no search
      text, a non-empty list is always shown in groups. */
  lemma NonEmptyListAlwaysShown(users: seq<User>, isLoading: bool, error: Option<string>)
    requires users != [] && NamesNonEmpty(users)
    ensures FilterUsers(users, "") == users
    ensures ListViewFor(users, isLoading, error, "").GroupedList?
  {
    EmptyQueryKeepsAll(users);
  }

  /** A row shows the contact's photo exactly when it has a URL that is
      not blank, that is, one that trimming does not empty. */
  predicate HasPhoto(u: User)
    ensures HasPhoto(u) <==> u.imageUrl.Some? && Trim(u.imageUrl.value) != ""
  {
    match u.imageUrl
    case None => false
    case Some(url) => BlankIffTrimEmpty(url); !IsBlank(url)
  }
}

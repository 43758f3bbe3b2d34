/** The decision logic of the command that resolves user accounts whose
    e-mail addresses or logins conflict: classifying a conflict, reading the
    operator's confirmation and choice of user, and the merge and
    de-duplication steps. Standard input becomes a parameter; the user
    store's MergeUser, UpdateUser and DeleteUser calls are recorded, with
    their outcomes given by a `UserStore` value. */
module ConflictUsers {
  import opened Common
  import opened GoStrings

  /** One group of conflicting users, as the conflict query returns it: the
      ids, e-mails and logins are comma-joined lists. */
  datatype ConflictingUsers = ConflictingUsers(
    ids: string,
    userIdentifier: string,
    conflictEmails: string,
    conflictLogins: string,
    sameIdentificationConflictIds: bool)

  /** How a conflict is resolved; `Unclassified` is the empty conflict type,
      which the command skips. */
  datatype ConflictType = Merge | SameIdentification | Unclassified

  /** Classifying a conflict: same identification wins over conflicting
      e-mails or logins. */
  function Conflict(c: ConflictingUsers): (r: ConflictType)
    ensures r == SameIdentification <==> c.sameIdentificationConflictIds
    ensures r == Merge <==> !c.sameIdentificationConflictIds && (c.conflictEmails != "" || c.conflictLogins != "")
    ensures r == Unclassified <==>
      !c.sameIdentificationConflictIds && c.conflictEmails == "" && c.conflictLogins == ""
  {
    if c.sameIdentificationConflictIds then SameIdentification
    else if c.conflictEmails != "" || c.conflictLogins != "" then Merge
    else Unclassified
  }

  /** The confirmation answer is accepted when, lower-cased, it is "y" or
      "yes": in any mix of cases, and nothing else. */
  function ConfirmAccepts(input: string): (r: bool)
    ensures r <==>
      || (|input| == 1 && input[0] in "yY")
      || (|input| == 3 && input[0] in "yY" && input[1] in "eE" && input[2] in "sS")
  {
    var lowered := ToLower(input);
    lowered == "y" || lowered == "yes"
  }

  // ---------------------------------------------------------------------
  // Choosing a user
  // ---------------------------------------------------------------------

  /** A line read from standard input, or the failure to read one (with the
      scanner's error, if it reported one). */
  datatype ScanResult = Scanned(text: string) | ScanFailed(err: Option<Error>)

  const CannotReadChoice: string := "can't read conflict option from stdin"
  const NotAConflictingUserId: string := "not a conflicting user id"
  const CouldNotParseId: string := "could not parse id from string"

  /** The operator's choice of the user to merge into: the line must occur
      in the comma-joined id list (as a substring: membership in the split
      list is not checked) and must parse as a base-10 int64. On error the id
      returned is -1. */
  function PromptToMerge(c: ConflictingUsers, input: ScanResult): (r: (int64, Option<Error>))
    ensures r.1.None? <==> input.Scanned? && Contains(c.ids, input.text) && ParseInt64(input.text).Success?
    ensures r.1.None? ==> r.0 == ParseInt64(input.text).value
    ensures r.1.Some? ==> r.0 == -1
    ensures input.ScanFailed? ==>
      r.1 == Some(if input.err.Some? then Wrapped(CannotReadChoice, input.err.value) else Message(CannotReadChoice))
    ensures input.Scanned? && !Contains(c.ids, input.text) ==> r.1 == Some(Message(NotAConflictingUserId))
    ensures input.Scanned? && Contains(c.ids, input.text) && ParseInt64(input.text).Failure? ==>
      r.1 == Some(Message(CouldNotParseId))
  {
    match input
    case ScanFailed(err) =>
      if err.Some? then (-1, Some(Wrapped(CannotReadChoice, err.value))) else (-1, Some(Message(CannotReadChoice)))
    case Scanned(chosenUser) =>
      if !Contains(c.ids, chosenUser) then (-1, Some(Message(NotAConflictingUserId)))
      else
        var v := ParseInt64(chosenUser);
        if v.Failure? then (-1, Some(Message(CouldNotParseId))) else (v.value, None)
  }

  /** The same prompt, worded for a same-identification conflict. */
  function PromptSameIdentification(c: ConflictingUsers, input: ScanResult): (r: (int64, Option<Error>))
    ensures r == PromptToMerge(c, input)
  {
    match input
    case ScanFailed(err) =>
      if err.Some? then (-1, Some(Wrapped(CannotReadChoice, err.value))) else (-1, Some(Message(CannotReadChoice)))
    case Scanned(chosenUser) =>
      if !Contains(c.ids, chosenUser) then (-1, Some(Message(NotAConflictingUserId)))
      else
        var v := ParseInt64(chosenUser);
        if v.Failure? then (-1, Some(Message(CouldNotParseId))) else (v.value, None)
  }

  /** Any listed id that parses is accepted as the choice. */
  lemma ListedIdIsAccepted(c: ConflictingUsers, k: nat)
    requires k < |Split(c.ids, ',')|
    requires ParseInt64(Split(c.ids, ',')[k]).Success?
    ensures PromptToMerge(c, Scanned(Split(c.ids, ',')[k])) == (ParseInt64(Split(c.ids, ',')[k]).value, None)
  {
    PieceOccurs(c.ids, ',', k);
  }

  lemma ExampleIdsSplit()
    ensures Split("12,13", ',') == ["12", "13"]
  {
    assert Join(["12", "13"], ',') == "12,13";
    SplitJoin(["12", "13"], ',');
  }

  lemma ExampleIdsParse()
    ensures ParseInt64("1") == Success(1)
    ensures ParseInt64("12") == Success(12) && ParseInt64("13") == Success(13)
  {
    ParseInt64Meaning("1");
    ParseInt64Meaning("12");
    ParseInt64Meaning("13");
  }

  /** The check is a substring check: for the ids "12,13" the choice "1" is
      accepted, and yields the id 1, which is not one of the listed ids. */
  lemma ChoiceIsCheckedAsSubstring()
    ensures PromptToMerge(ConflictingUsers("12,13", "", "a", "", false), Scanned("1")) == (1, None)
    ensures Split("12,13", ',') == ["12", "13"]
    ensures ParseInt64("12") == Success(12) && ParseInt64("13") == Success(13)
  {
    assert OccursAt("12,13", "1", 0);
    ExampleIdsParse();
    ExampleIdsSplit();
  }

  // ---------------------------------------------------------------------
  // Printing a conflict
  // ---------------------------------------------------------------------

  /** The line printed for one user of a conflict. */
  function PrintedLine(id: string, email: string, login: string): string {
    "Id: " + id + ", Email: " + email + ", Login: " + login + "\n---\n"
  }

  /** The lines printed for a conflict: one per id, with the e-mail and
      login at the same position. The command indexes the e-mail and login
      lists without a check, so they must be at least as long as the id
      list. */
  method Print(c: ConflictingUsers) returns (lines: seq<string>)
    requires |Split(c.conflictEmails, ',')| >= |Split(c.ids, ',')|
    requires |Split(c.conflictLogins, ',')| >= |Split(c.ids, ',')|
    ensures |lines| == |Split(c.ids, ',')|
    ensures forall i :: 0 <= i < |lines| ==>
      lines[i] == PrintedLine(Split(c.ids, ',')[i], Split(c.conflictEmails, ',')[i], Split(c.conflictLogins, ',')[i])
  {
    var ids := Split(c.ids, ',');
    var emails := Split(c.conflictEmails, ',');
    var logins := Split(c.conflictLogins, ',');
    ghost var printed := seq(|ids|, j requires 0 <= j < |ids| => PrintedLine(ids[j], emails[j], logins[j]));
    lines := [];
    for i := 0 to |ids|
      invariant lines == printed[..i]
    {
      lines := lines + [PrintedLine(ids[i], emails[i], logins[i])];
    }
    assert lines == printed;
  }

  // ---------------------------------------------------------------------
  // Merging and de-duplicating
  // ---------------------------------------------------------------------

  /** A call to the user store. */
  datatype UserCall = StoreMergeUser(into: int64, from: seq<int64>) | StoreUpdateUser(userId: int64) | StoreDeleteUser(userId: int64)

  /** How the user store's calls turn out. */
  datatype UserStore = UserStore(
    mergeUser: (int64, seq<int64>) -> Option<Error>,
    updateUser: int64 -> Option<Error>,
    deleteUser: int64 -> Option<Error>)

  /** Merging: every comma-separated id is parsed, in order, and only if all
      parse is the store asked to merge them into the chosen user; the
      store's error is returned as it is. */
  method MergeUser(mergeIntoUser: int64, c: ConflictingUsers, store: UserStore) returns (err: Option<Error>, calls: seq<UserCall>)
    ensures calls == [] <==> exists i :: 0 <= i < |Split(c.ids, ',')| && ParseInt64(Split(c.ids, ',')[i]).Failure?
    ensures calls == [] ==> err == Some(Message(CouldNotParseId))
    ensures calls != [] ==>
      && |calls| == 1
      && calls[0].StoreMergeUser?
      && calls[0].into == mergeIntoUser
      && |calls[0].from| == |Split(c.ids, ',')|
      && (forall i :: 0 <= i < |calls[0].from| ==> ParseInt64(Split(c.ids, ',')[i]) == Success(calls[0].from[i]))
      && err == store.mergeUser(mergeIntoUser, calls[0].from)
  {
    var stringIds := Split(c.ids, ',');
    var fromUserIds: seq<int64> := [];
    for i := 0 to |stringIds|
      invariant |fromUserIds| == i
      invariant forall j :: 0 <= j < i ==> ParseInt64(stringIds[j]) == Success(fromUserIds[j])
    {
      var v := ParseInt64(stringIds[i]);
      if v.Failure? {
        assert exists k :: 0 <= k < |Split(c.ids, ',')| && ParseInt64(Split(c.ids, ',')[k]).Failure?;
        return Some(Message(CouldNotParseId)), [];
      }
      fromUserIds := fromUserIds + [v.value];
    }
    return store.mergeUser(mergeIntoUser, fromUserIds), [StoreMergeUser(mergeIntoUser, fromUserIds)];
  }

  const CouldNotUpdateUser: string := "could not update user with details"

  /** The error a de-duplication ends with, and the calls it made. */
  datatype UserOutcome = UserOutcome(err: Option<Error>, calls: seq<UserCall>)

  /** Deleting one of the other users: its id is parsed (a parse failure is
      strconv's error, and nothing is deleted), then the user is deleted (a
      failed deletion is wrapped). */
  function DeleteOne(userId: string, store: UserStore): UserOutcome {
    var v := ParseInt64(userId);
    if v.Failure? then UserOutcome(Some(v.error), [])
    else
      var deleted := store.deleteUser(v.value);
      UserOutcome(if deleted.Some? then Some(Wrapped(CouldNotUpdateUser, deleted.value)) else None,
                  [StoreDeleteUser(v.value)])
  }

  /** `o` with `prefix` made before it. */
  function Then(prefix: seq<UserCall>, o: UserOutcome): UserOutcome {
    UserOutcome(o.err, prefix + o.calls)
  }

  /** Deleting the users of `ids` in order, stopping at the first one that
      fails. */
  function DeleteEach(ids: seq<string>, store: UserStore): UserOutcome
    decreases |ids|
  {
    if ids == [] then UserOutcome(None, [])
    else
      var one := DeleteOne(ids[0], store);
      if one.err.Some? then one else Then(one.calls, DeleteEach(ids[1..], store))
  }

  lemma ThenThen(a: seq<UserCall>, b: seq<UserCall>, o: UserOutcome)
    ensures Then(a, Then(b, o)) == Then(a + b, o)
  {
    assert a + (b + o.calls) == (a + b) + o.calls;
  }

  /** The calls of a deletion run are deletions of the first ids, in order,
      each with the parsed id. */
  lemma {:induction false} DeleteEachDeletesInOrder(ids: seq<string>, store: UserStore)
    ensures |DeleteEach(ids, store).calls| <= |ids|
    ensures forall i :: 0 <= i < |DeleteEach(ids, store).calls| ==>
      ParseInt64(ids[i]).Success? && DeleteEach(ids, store).calls[i] == StoreDeleteUser(ParseInt64(ids[i]).value)
    decreases |ids|
  {
    if ids != [] {
      var one := DeleteOne(ids[0], store);
      var o := DeleteEach(ids, store);
      if one.err.Some? {
        assert o == one;
      } else {
        var rest := DeleteEach(ids[1..], store);
        DeleteEachDeletesInOrder(ids[1..], store);
        assert o.calls == one.calls + rest.calls;
        forall i | 1 <= i < |o.calls|
          ensures ParseInt64(ids[i]).Success? && o.calls[i] == StoreDeleteUser(ParseInt64(ids[i]).value)
        {
          assert o.calls[i] == rest.calls[i - 1] && ids[i] == ids[1..][i - 1];
        }
      }
    }
  }

  /** A deletion run succeeds exactly when every id parses and every
      deletion succeeds, and then it has deleted every listed user. */
  lemma {:induction false} DeleteEachSucceedsIff(ids: seq<string>, store: UserStore)
    ensures DeleteEach(ids, store).err.None? <==>
      forall i :: 0 <= i < |ids| ==> ParseInt64(ids[i]).Success? && store.deleteUser(ParseInt64(ids[i]).value).None?
    ensures DeleteEach(ids, store).err.None? ==> |DeleteEach(ids, store).calls| == |ids|
    decreases |ids|
  {
    if ids != [] {
      var one := DeleteOne(ids[0], store);
      DeleteEachSucceedsIff(ids[1..], store);
      assert forall i :: 1 <= i < |ids| ==> ids[i] == ids[1..][i - 1];
    }
  }

  /** Every deletion of a run but the last one succeeded. */
  lemma {:induction false} DeleteEachEarlierDeletesSucceed(ids: seq<string>, store: UserStore)
    ensures forall j :: 0 <= j < |DeleteEach(ids, store).calls| - 1 ==>
      DeleteEach(ids, store).calls[j].StoreDeleteUser? && store.deleteUser(DeleteEach(ids, store).calls[j].userId).None?
    decreases |ids|
  {
    if ids != [] {
      var one := DeleteOne(ids[0], store);
      var o := DeleteEach(ids, store);
      if one.err.Some? {
        assert o == one;
      } else {
        var rest := DeleteEach(ids[1..], store);
        DeleteEachEarlierDeletesSucceed(ids[1..], store);
        assert o == Then(one.calls, rest) && |one.calls| == 1;
        forall j | 0 <= j < |o.calls| - 1
          ensures o.calls[j].StoreDeleteUser? && store.deleteUser(o.calls[j].userId).None?
        {
          if j > 0 {
            assert o.calls[j] == rest.calls[j - 1];
          }
        }
      }
    }
  }

  /** Deletion stops at the first id that does not parse, with strconv's
      error, or right after the first deletion that fails, with that error
      wrapped; every deletion before the last one succeeded. */
  lemma {:induction false} DeleteEachStopsAtFirstFailure(ids: seq<string>, store: UserStore)
    requires DeleteEach(ids, store).err.Some?
    ensures forall j :: 0 <= j < |DeleteEach(ids, store).calls| - 1 ==>
      DeleteEach(ids, store).calls[j].StoreDeleteUser? && store.deleteUser(DeleteEach(ids, store).calls[j].userId).None?
    ensures var o := DeleteEach(ids, store);
      || (|o.calls| < |ids| && ParseInt64(ids[|o.calls|]).Failure? && o.err == Some(ParseInt64(ids[|o.calls|]).error))
      || (|o.calls| > 0 && o.calls[|o.calls| - 1].StoreDeleteUser? && store.deleteUser(o.calls[|o.calls| - 1].userId).Some?
          && o.err == Some(Wrapped(CouldNotUpdateUser, store.deleteUser(o.calls[|o.calls| - 1].userId).value)))
    decreases |ids|
  {
    DeleteEachEarlierDeletesSucceed(ids, store);
    var one := DeleteOne(ids[0], store);
    if one.err.None? {
      var rest := DeleteEach(ids[1..], store);
      DeleteEachStopsAtFirstFailure(ids[1..], store);
      var o := DeleteEach(ids, store);
      assert o == Then(one.calls, rest) && |one.calls| == 1;
      var n := |rest.calls|;
      if n < |ids| - 1 && ParseInt64(ids[1..][n]).Failure? && rest.err == Some(ParseInt64(ids[1..][n]).error) {
        assert ids[1..][n] == ids[|o.calls|];
      } else {
        assert o.calls[|o.calls| - 1] == rest.calls[n - 1];
      }
    }
  }

  /** De-duplication: update the chosen user, then delete every listed user. */
  function DeDupe(chosenUser: int64, ids: seq<string>, store: UserStore): UserOutcome {
    var updated := store.updateUser(chosenUser);
    if updated.Some? then UserOutcome(Some(Wrapped(CouldNotUpdateUser, updated.value)), [StoreUpdateUser(chosenUser)])
    else Then([StoreUpdateUser(chosenUser)], DeleteEach(ids, store))
  }

  /** The body of the deletion loop for one listed user. */
  method DeleteOtherUser(userId: string, store: UserStore) returns (err: Option<Error>, calls: seq<UserCall>)
    ensures UserOutcome(err, calls) == DeleteOne(userId, store)
  {
    var oUser := ParseInt64(userId);
    if oUser.Failure? {
      return Some(oUser.error), [];
    }
    calls := [StoreDeleteUser(oUser.value)];
    var deleted := store.deleteUser(oUser.value);
    if deleted.Some? {
      return Some(Wrapped(CouldNotUpdateUser, deleted.value)), calls;
    }
    err := None;
  }

  method DeDupeSameIdentification(chosenUser: int64, c: ConflictingUsers, store: UserStore)
    returns (err: Option<Error>, calls: seq<UserCall>)
    ensures UserOutcome(err, calls) == DeDupe(chosenUser, Split(c.ids, ','), store)
    ensures |calls| >= 1 && calls[0] == StoreUpdateUser(chosenUser)
  {
    calls := [StoreUpdateUser(chosenUser)];
    var updated := store.updateUser(chosenUser);
    if updated.Some? {
      return Some(Wrapped(CouldNotUpdateUser, updated.value)), calls;
    }
    var otherUsers := Split(c.ids, ',');
    ghost var all := DeleteEach(otherUsers, store);
    var deletes: seq<UserCall> := [];
    assert otherUsers[0..] == otherUsers;
    var i := 0;
    while i < |otherUsers|
      invariant 0 <= i <= |otherUsers|
      invariant all == Then(deletes, DeleteEach(otherUsers[i..], store))
    {
      assert otherUsers[i..][0] == otherUsers[i] && otherUsers[i..][1..] == otherUsers[i + 1..];
      var userErr, userCalls := DeleteOtherUser(otherUsers[i], store);
      ThenThen(deletes, userCalls, DeleteEach(otherUsers[i + 1..], store));
      if userErr.Some? {
        ThenThen(calls, deletes, UserOutcome(userErr, userCalls));
        return userErr, calls + (deletes + userCalls);
      }
      deletes := deletes + userCalls;
      i := i + 1;
    }
    assert otherUsers[i..] == [];
    ThenThen(calls, deletes, UserOutcome(None, []));
    return None, calls + deletes;
  }

  /** A successful de-duplication deletes every listed user, in list order,
      after updating the chosen one. */
  lemma DeDupeDeletesEveryListedUser(chosenUser: int64, ids: seq<string>, store: UserStore)
    requires DeDupe(chosenUser, ids, store).err.None?
    ensures |DeDupe(chosenUser, ids, store).calls| == |ids| + 1
    ensures DeDupe(chosenUser, ids, store).calls[0] == StoreUpdateUser(chosenUser)
    ensures forall i :: 0 <= i < |ids| ==>
      ParseInt64(ids[i]).Success? && DeDupe(chosenUser, ids, store).calls[i + 1] == StoreDeleteUser(ParseInt64(ids[i]).value)
  {
    var deletes := DeleteEach(ids, store);
    DeleteEachDeletesInOrder(ids, store);
    DeleteEachSucceedsIff(ids, store);
    var calls := [StoreUpdateUser(chosenUser)] + deletes.calls;
    assert DeDupe(chosenUser, ids, store) == UserOutcome(deletes.err, calls);
    forall i | 0 <= i < |ids|
      ensures ParseInt64(ids[i]).Success? && calls[i + 1] == StoreDeleteUser(ParseInt64(ids[i]).value)
    {
      assert calls[i + 1] == deletes.calls[i];
    }
  }

  /** Since the list is not filtered, a successful de-duplication whose list
      holds the chosen user's id also deletes the chosen user. */
  lemma DeDupeDeletesChosenUserToo(chosenUser: int64, c: ConflictingUsers, store: UserStore)
    requires FormatInt(chosenUser) in Split(c.ids, ',')
    requires DeDupe(chosenUser, Split(c.ids, ','), store).err.None?
    ensures StoreDeleteUser(chosenUser) in DeDupe(chosenUser, Split(c.ids, ','), store).calls
  {
    var ids := Split(c.ids, ',');
    var k :| 0 <= k < |ids| && ids[k] == FormatInt(chosenUser);
    ParseFormat(chosenUser);
    DeDupeDeletesEveryListedUser(chosenUser, ids, store);
    assert DeDupe(chosenUser, ids, store).calls[k + 1] == StoreDeleteUser(chosenUser);
  }
}

/** The relational store: tables, unique indexes, cascade and sequences of
    internal/app/db/migrations, and the statements of internal/app/repository/repository.go.
    Every statement or transaction is atomic. */
module Store {
  import opened Common
  import RepoFormat

  datatype Subscription = Subscription(email: string, repo: string, confirmed: bool, unsub: string)

  datatype Token = Token(value: string, sub: nat)

  datatype Db = Db(
    subs: map<nat, Subscription>,
    tokens: map<nat, Token>,
    watched: map<string, string>,
    nextSub: nat,
    nextToken: nat)

  const EMPTY := Db(map[], map[], map[], 1, 1)

  // ---- statements ----

  predicate PairTaken(db: Db, email: string, repo: string) {
    exists i :: i in db.subs && db.subs[i].email == email && db.subs[i].repo == repo
  }

  predicate UnsubTaken(db: Db, unsub: string) {
    exists i :: i in db.subs && db.subs[i].unsub == unsub
  }

  predicate TokenTaken(db: Db, value: string) {
    exists t :: t in db.tokens && db.tokens[t].value == value
  }

  /** The transaction either inserts both rows or none. A sequence value is spent either way. */
  predicate CanCreate(db: Db, email: string, repo: string, unsub: string, confirm: string) {
    !PairTaken(db, email, repo) && !UnsubTaken(db, unsub) && !TokenTaken(db, confirm)
  }

  function Create(db: Db, email: string, repo: string, unsub: string, confirm: string): Db {
    if CanCreate(db, email, repo, unsub, confirm) then
      Db(db.subs[db.nextSub := Subscription(email, repo, false, unsub)],
         db.tokens[db.nextToken := Token(confirm, db.nextSub)],
         db.watched, db.nextSub + 1, db.nextToken + 1)
    else if !PairTaken(db, email, repo) && !UnsubTaken(db, unsub) then
      db.(nextSub := db.nextSub + 1, nextToken := db.nextToken + 1)
    else
      db.(nextSub := db.nextSub + 1)
  }

  function Confirm(db: Db, id: nat): Db {
    if id in db.subs then db.(subs := db.subs[id := db.subs[id].(confirmed := true)]) else db
  }

  /** ON DELETE CASCADE takes the subscription's tokens along. */
  function Delete(db: Db, id: nat): Db {
    db.(subs := map i | i in db.subs && i != id :: db.subs[i],
        tokens := map t | t in db.tokens && db.tokens[t].sub != id :: db.tokens[t])
  }

  function DropToken(db: Db, id: nat): Db {
    db.(tokens := map t | t in db.tokens && t != id :: db.tokens[t])
  }

  function SaveTag(db: Db, repo: string, tag: string): Db {
    db.(watched := db.watched[repo := tag])
  }

  // ---- the integrity the indexes, the cascade and the call order maintain ----

  ghost predicate PairsUnique(db: Db) {
    forall i, j :: i in db.subs && j in db.subs && i != j
      ==> db.subs[i].email != db.subs[j].email || db.subs[i].repo != db.subs[j].repo
  }

  ghost predicate UnsubsUnique(db: Db) {
    forall i, j :: i in db.subs && j in db.subs && db.subs[i].unsub == db.subs[j].unsub ==> i == j
  }

  ghost predicate TokensUnique(db: Db) {
    && (forall s, t :: s in db.tokens && t in db.tokens && db.tokens[s].value == db.tokens[t].value ==> s == t)
    && (forall s, t :: s in db.tokens && t in db.tokens && db.tokens[s].sub == db.tokens[t].sub ==> s == t)
  }

  ghost predicate HasToken(db: Db, id: nat) {
    exists t :: t in db.tokens && db.tokens[t].sub == id
  }

  ghost predicate RowsOk(db: Db) {
    forall i :: i in db.subs ==> i < db.nextSub && RepoFormat.MatchString(db.subs[i].repo)
  }

  /** No token row dangles. */
  ghost predicate TokensLive(db: Db) {
    forall t :: t in db.tokens ==> t < db.nextToken && db.tokens[t].sub in db.subs
  }

  ghost predicate PendingHaveTokens(db: Db) {
    forall i :: i in db.subs && !db.subs[i].confirmed ==> HasToken(db, i)
  }

  ghost predicate Integrity(db: Db) {
    && PairsUnique(db) && UnsubsUnique(db) && TokensUnique(db)
    && RowsOk(db) && TokensLive(db) && PendingHaveTokens(db)
  }

  lemma CreateKeepsUnique(db: Db, email: string, repo: string, unsub: string, confirm: string)
    requires PairsUnique(db) && UnsubsUnique(db) && RowsOk(db)
    requires CanCreate(db, email, repo, unsub, confirm)
    ensures var db' := Create(db, email, repo, unsub, confirm);
            PairsUnique(db') && UnsubsUnique(db')
  {
    var db' := Create(db, email, repo, unsub, confirm);
    var n := db.nextSub;
    assert forall i :: i in db'.subs && i != n ==> i in db.subs && db'.subs[i] == db.subs[i];
  }

  lemma CreateKeepsTokensUnique(db: Db, email: string, repo: string, unsub: string, confirm: string)
    requires TokensUnique(db) && RowsOk(db) && TokensLive(db)
    requires CanCreate(db, email, repo, unsub, confirm)
    ensures TokensUnique(Create(db, email, repo, unsub, confirm))
  {
    var db' := Create(db, email, repo, unsub, confirm);
    var n := db.nextToken;
    assert forall t :: t in db'.tokens && t != n ==> t in db.tokens && db'.tokens[t] == db.tokens[t];
  }

  lemma CreateKeepsPending(db: Db, email: string, repo: string, unsub: string, confirm: string)
    requires TokensLive(db) && PendingHaveTokens(db)
    ensures PendingHaveTokens(Create(db, email, repo, unsub, confirm))
  {
    var db' := Create(db, email, repo, unsub, confirm);
    forall i | i in db'.subs && !db'.subs[i].confirmed
      ensures HasToken(db', i)
    {
      if CanCreate(db, email, repo, unsub, confirm) && i == db.nextSub {
        assert db'.tokens[db.nextToken].sub == i;
      } else {
        assert HasToken(db, i);
        var t :| t in db.tokens && db.tokens[t].sub == i;
        assert t in db'.tokens && db'.tokens[t] == db.tokens[t];
      }
    }
  }

  lemma CreateKeepsIntegrity(db: Db, email: string, repo: string, unsub: string, confirm: string)
    requires Integrity(db) && RepoFormat.MatchString(repo)
    ensures Integrity(Create(db, email, repo, unsub, confirm))
  {
    CreateKeepsPending(db, email, repo, unsub, confirm);
    if CanCreate(db, email, repo, unsub, confirm) {
      CreateKeepsUnique(db, email, repo, unsub, confirm);
      CreateKeepsTokensUnique(db, email, repo, unsub, confirm);
    }
  }

  lemma ConfirmKeepsIntegrity(db: Db, id: nat)
    requires Integrity(db)
    ensures Integrity(Confirm(db, id))
  {
    ConfirmKeepsPending(db, id);
  }

  lemma ConfirmKeepsPending(db: Db, id: nat)
    requires PendingHaveTokens(db)
    ensures PendingHaveTokens(Confirm(db, id))
  {
    var db' := Confirm(db, id);
    forall i | i in db'.subs && !db'.subs[i].confirmed
      ensures HasToken(db', i)
    {
      assert HasToken(db, i);
    }
  }

  lemma SequencesKeepIntegrity(db: Db, db': Db)
    requires Integrity(db) && db'.subs == db.subs && db'.tokens == db.tokens
    requires db.nextSub <= db'.nextSub && db.nextToken <= db'.nextToken
    ensures Integrity(db')
  {
    forall i | i in db'.subs && !db'.subs[i].confirmed
      ensures HasToken(db', i)
    {
      assert HasToken(db, i);
    }
  }

  lemma SaveTagKeepsIntegrity(db: Db, repo: string, tag: string)
    requires Integrity(db)
    ensures Integrity(SaveTag(db, repo, tag))
  {
    forall i | i in db.subs && !db.subs[i].confirmed
      ensures HasToken(SaveTag(db, repo, tag), i)
    {
      assert HasToken(db, i);
    }
  }

  lemma DeleteKeepsIntegrity(db: Db, id: nat)
    requires Integrity(db)
    ensures Integrity(Delete(db, id))
  {
    var db' := Delete(db, id);
    forall i | i in db'.subs && !db'.subs[i].confirmed
      ensures HasToken(db', i)
    {
      assert HasToken(db, i);
      var t :| t in db.tokens && db.tokens[t].sub == i;
      assert t in db'.tokens;
    }
  }

  /** Exactly when a token may go: its subscription must already be confirmed. */
  lemma DropTokenKeepsIntegrityIff(db: Db, id: nat)
    requires Integrity(db)
    ensures Integrity(DropToken(db, id))
            <==> (id in db.tokens ==> db.subs[db.tokens[id].sub].confirmed)
  {
    var db' := DropToken(db, id);
    if id in db.tokens ==> db.subs[db.tokens[id].sub].confirmed {
      forall i | i in db'.subs && !db'.subs[i].confirmed
        ensures HasToken(db', i)
      {
        assert HasToken(db, i);
        var t :| t in db.tokens && db.tokens[t].sub == i;
        assert t in db'.tokens;
      }
    } else {
      assert !HasToken(db', db.tokens[id].sub);
    }
  }

  /** Unsubscribing exactly undoes a fresh subscribe; only the sequences have moved. */
  lemma DeleteUndoesCreate(db: Db, email: string, repo: string, unsub: string, confirm: string)
    requires RowsOk(db) && TokensLive(db) && CanCreate(db, email, repo, unsub, confirm)
    ensures var db' := Delete(Create(db, email, repo, unsub, confirm), db.nextSub);
            db' == db.(nextSub := db.nextSub + 1, nextToken := db.nextToken + 1)
  {
    var created := Create(db, email, repo, unsub, confirm);
    var db' := Delete(created, db.nextSub);
    assert created.subs == db.subs[db.nextSub := Subscription(email, repo, false, unsub)];
    assert created.tokens == db.tokens[db.nextToken := Token(confirm, db.nextSub)];
    assert db'.subs == db.subs;
    assert db'.tokens == db.tokens;
  }

  /** A deleted pair is free again, and nothing but that row and its tokens has gone. */
  lemma DeleteFreesThePair(db: Db, id: nat)
    requires Integrity(db) && id in db.subs
    ensures var db' := Delete(db, id);
      && !PairTaken(db', db.subs[id].email, db.subs[id].repo)
      && db'.subs.Keys == db.subs.Keys - {id}
      && (forall i :: i in db'.subs ==> db'.subs[i] == db.subs[i])
      && (forall t :: t in db.tokens ==> (t in db'.tokens <==> db.tokens[t].sub != id))
      && (forall t :: t in db'.tokens ==> db'.tokens[t] == db.tokens[t])
      && db'.watched == db.watched && db'.nextSub == db.nextSub && db'.nextToken == db.nextToken
  {
  }

  // ---- queries ----

  ghost predicate IsConfirmedList(db: Db, repo: string, ids: seq<nat>) {
    && NoDup(ids)
    && forall i :: i in ids <==> i in db.subs && db.subs[i].confirmed && db.subs[i].repo == repo
  }

  ghost predicate IsRepoList(db: Db, repos: seq<string>) {
    && NoDup(repos)
    && forall r :: r in repos <==> exists i :: i in db.subs && db.subs[i].confirmed && db.subs[i].repo == r
  }
}

/** The repository object: each method is one statement or transaction. `o` says whether it
    reached the database and whether the caller learned of it. */
module RepositoryObject {
  import opened Common
  import Store

  class Repository {
    var subs: map<nat, Store.Subscription>
    var tokens: map<nat, Store.Token>
    var watched: map<string, string>
    var nextSub: nat
    var nextToken: nat

    constructor ()
      ensures Value() == Store.EMPTY
    {
      subs, tokens, watched, nextSub, nextToken := map[], map[], map[], 1, 1;
    }

    ghost function Value(): Store.Db
      reads this
    {
      Store.Db(subs, tokens, watched, nextSub, nextToken)
    }

    method CreateSubscriptionWithToken(email: string, repo: string, unsub: string, confirm: string, o: Outcome)
      returns (ok: bool)
      modifies this
      ensures Value() == if o.Applied() then Store.Create(old(Value()), email, repo, unsub, confirm) else old(Value())
      ensures ok <==> o.Done? && Store.CanCreate(old(Value()), email, repo, unsub, confirm)
    {
      if !o.Applied() {
        return false;
      }
      var id := nextSub;
      nextSub := nextSub + 1;
      if exists i :: i in subs && ((subs[i].email == email && subs[i].repo == repo) || subs[i].unsub == unsub) {
        return false;
      }
      var tokenId := nextToken;
      nextToken := nextToken + 1;
      if exists t :: t in tokens && tokens[t].value == confirm {
        return false;
      }
      subs := subs[id := Store.Subscription(email, repo, false, unsub)];
      tokens := tokens[tokenId := Store.Token(confirm, id)];
      ok := o.Done?;
    }

    method FindSubscriptionByEmailAndRepo(email: string, repo: string) returns (r: Option<nat>)
      ensures r.Some? ==> r.value in subs && subs[r.value].email == email && subs[r.value].repo == repo
      ensures r.None? ==> !Store.PairTaken(Value(), email, repo)
    {
      if i :| i in subs && subs[i].email == email && subs[i].repo == repo {
        return Some(i);
      }
      r := None;
    }

    method FindSubscriptionByUnsubscribeToken(unsub: string) returns (r: Option<nat>)
      ensures r.Some? ==> r.value in subs && subs[r.value].unsub == unsub
      ensures r.None? ==> !Store.UnsubTaken(Value(), unsub)
    {
      if i :| i in subs && subs[i].unsub == unsub {
        return Some(i);
      }
      r := None;
    }

    method FindTokenByValue(value: string) returns (r: Option<nat>)
      ensures r.Some? ==> r.value in tokens && tokens[r.value].value == value
      ensures r.None? ==> !Store.TokenTaken(Value(), value)
    {
      if t :| t in tokens && tokens[t].value == value {
        return Some(t);
      }
      r := None;
    }

    method ConfirmSubscription(id: nat, o: Outcome) returns (ok: bool)
      modifies this`subs
      ensures Value() == if o.Applied() then Store.Confirm(old(Value()), id) else old(Value())
      ensures ok == o.Done?
    {
      if o.Applied() && id in subs {
        subs := subs[id := subs[id].(confirmed := true)];
      }
      ok := o.Done?;
    }

    method DeleteSubscription(id: nat, o: Outcome) returns (ok: bool)
      modifies this`subs, this`tokens
      ensures Value() == if o.Applied() then Store.Delete(old(Value()), id) else old(Value())
      ensures ok == o.Done?
    {
      if o.Applied() {
        subs := map i | i in subs && i != id :: subs[i];
        tokens := map t | t in tokens && tokens[t].sub != id :: tokens[t];
      }
      ok := o.Done?;
    }

    method DeleteToken(id: nat, o: Outcome) returns (ok: bool)
      modifies this`tokens
      ensures Value() == if o.Applied() then Store.DropToken(old(Value()), id) else old(Value())
      ensures ok == o.Done?
    {
      if o.Applied() {
        tokens := map t | t in tokens && t != id :: tokens[t];
      }
      ok := o.Done?;
    }

    method GetWatchedRepo(repo: string) returns (r: Option<string>)
      ensures r == Lookup(watched, repo)
    {
      r := Lookup(watched, repo);
    }

    method SaveWatchedRepoTag(repo: string, tag: string, o: Outcome) returns (ok: bool)
      modifies this`watched
      ensures Value() == if o.Applied() then Store.SaveTag(old(Value()), repo, tag) else old(Value())
      ensures ok == o.Done?
    {
      if o.Applied() {
        watched := watched[repo := tag];
      }
      ok := o.Done?;
    }

    /** The row order is the database's choice. */
    method FindConfirmedSubscriptionsByRepo(repo: string) returns (rows: seq<nat>)
      ensures Store.IsConfirmedList(Value(), repo, rows)
    {
      var left := set i | i in subs && subs[i].confirmed && subs[i].repo == repo;
      ghost var all := left;
      rows := [];
      while left != {}
        invariant left <= all
        invariant NoDup(rows)
        invariant forall i :: i in rows <==> i in all && i !in left
        decreases left
      {
        var i :| i in left;
        rows, left := rows + [i], left - {i};
      }
    }

    method FindDistinctConfirmedRepos() returns (repos: seq<string>)
      ensures Store.IsRepoList(Value(), repos)
    {
      var left := set i | i in subs && subs[i].confirmed :: subs[i].repo;
      ghost var all := left;
      repos := [];
      while left != {}
        invariant left <= all
        invariant NoDup(repos)
        invariant forall r :: r in repos <==> r in all && r !in left
        decreases left
      {
        var r :| r in left;
        repos, left := repos + [r], left - {r};
      }
    }
  }
}

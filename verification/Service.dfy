/** internal/app/service/service.go: what one undisturbed call does to the database and the stream.
    The environment's part - lookups that fail, GitHub's answer, drawn tokens, write outcomes - is
    a parameter. */
module ServiceSpec {
  import opened Common
  import opened WorldState
  import RepoFormat
  import Notify
  import Bus
  import Store

  datatype GithubReply = Exists | Missing | RateLimited | Unreachable

  datatype Reply =
    | Success
    | InvalidRepoFormat
    | AlreadySubscribed
    | RepoNotFound
    | GithubRateLimited
    | TokenNotFound
    | Failed

  datatype SubscribeEnv = SubscribeEnv(
    lookup: bool,
    github: GithubReply,
    unsub: Option<string>,
    confirm: Option<string>,
    create: Outcome,
    composed: bool,
    mail: Outcome)

  datatype ConfirmEnv = ConfirmEnv(lookup: bool, confirm: Outcome, drop: Outcome)

  datatype UnsubscribeEnv = UnsubscribeEnv(lookup: bool, delete: Outcome)

  function Mailed(s: Bus.Stream, email: string, confirm: string, composed: bool, o: Outcome): Bus.Stream {
    if composed then
      Bus.Publish(s, Notify.ConfirmationDedupID(confirm), Bus.ConfirmationCommand(confirm, email), o)
    else s
  }

  function Subscribe(w: World, email: string, repo: string, env: SubscribeEnv): (World, Reply) {
    if !RepoFormat.MatchString(repo) then (w, InvalidRepoFormat)
    else if !env.lookup then (w, Failed)
    else if Store.PairTaken(w.db, email, repo) then (w, AlreadySubscribed)
    else if env.github.Missing? then (w, RepoNotFound)
    else if env.github.RateLimited? then (w, GithubRateLimited)
    else if env.github.Unreachable? || env.unsub.None? || env.confirm.None? then (w, Failed)
    else
      var created := if env.create.Applied()
                     then Store.Create(w.db, email, repo, env.unsub.value, env.confirm.value) else w.db;
      if !env.create.Done? || !Store.CanCreate(w.db, email, repo, env.unsub.value, env.confirm.value) then
        (w.(db := created), Failed)
      else
        (World(created, Mailed(w.stream, email, env.confirm.value, env.composed, env.mail)), Success)
  }

  ghost function TokenRow(db: Store.Db, value: string): nat
    requires Store.TokenTaken(db, value)
  {
    var t :| t in db.tokens && db.tokens[t].value == value; t
  }

  ghost function Confirm(db: Store.Db, value: string, env: ConfirmEnv): (Store.Db, Reply) {
    if value == "" then (db, TokenNotFound)
    else if !env.lookup then (db, Failed)
    else if !Store.TokenTaken(db, value) then (db, TokenNotFound)
    else
      var t := TokenRow(db, value);
      var confirmed := if env.confirm.Applied() then Store.Confirm(db, db.tokens[t].sub) else db;
      if !env.confirm.Done? then (confirmed, Failed)
      else (if env.drop.Applied() then Store.DropToken(confirmed, t) else confirmed, Success)
  }

  ghost function UnsubRow(db: Store.Db, unsub: string): nat
    requires Store.UnsubTaken(db, unsub)
  {
    var i :| i in db.subs && db.subs[i].unsub == unsub; i
  }

  ghost function Unsubscribe(db: Store.Db, value: string, env: UnsubscribeEnv): (Store.Db, Reply) {
    if value == "" then (db, TokenNotFound)
    else if !env.lookup then (db, Failed)
    else if !Store.UnsubTaken(db, value) then (db, TokenNotFound)
    else
      (if env.delete.Applied() then Store.Delete(db, UnsubRow(db, value)) else db,
       if env.delete.Done? then Success else Failed)
  }

  // ---- exactly when a call answers what, and what it has changed then ----

  /** The pair is well formed, could be looked up and is not subscribed yet. */
  predicate MayAskGithub(w: World, email: string, repo: string, env: SubscribeEnv) {
    RepoFormat.MatchString(repo) && env.lookup && !Store.PairTaken(w.db, email, repo)
  }

  /** GitHub vouches for the repo and both tokens are drawn: the call comes to its insert. */
  predicate ComesToInsert(w: World, email: string, repo: string, env: SubscribeEnv) {
    MayAskGithub(w, email, repo, env) && env.github.Exists? && env.unsub.Some? && env.confirm.Some?
  }

  lemma SubscribeReplyIff(w: World, email: string, repo: string, env: SubscribeEnv)
    ensures var r := Subscribe(w, email, repo, env).1;
      && (r == InvalidRepoFormat <==> !RepoFormat.MatchString(repo))
      && (r == AlreadySubscribed <==>
            RepoFormat.MatchString(repo) && env.lookup && Store.PairTaken(w.db, email, repo))
      && (r == RepoNotFound <==> MayAskGithub(w, email, repo, env) && env.github == Missing)
      && (r == GithubRateLimited <==> MayAskGithub(w, email, repo, env) && env.github == RateLimited)
      && (r == Success <==>
            && ComesToInsert(w, email, repo, env) && env.create == Done
            && Store.CanCreate(w.db, email, repo, env.unsub.value, env.confirm.value))
      && r != TokenNotFound
  {
  }

  /** Short of the insert nothing has changed. */
  lemma RefusedSubscribeChangesNothing(w: World, email: string, repo: string, env: SubscribeEnv)
    requires !ComesToInsert(w, email, repo, env) || env.create == NotDone
    ensures Subscribe(w, email, repo, env).0 == w
  {
  }

  /** The insert adds the pending row with its token, both or none, and uses an id up in either case; a
      call that is told of a failure sends no mail. */
  lemma InsertIsBothOrNone(w: World, email: string, repo: string, env: SubscribeEnv)
    requires ComesToInsert(w, email, repo, env) && env.create.Applied()
    ensures var w', r := Subscribe(w, email, repo, env).0, Subscribe(w, email, repo, env).1;
      && w'.db.watched == w.db.watched && w'.db.nextSub == w.db.nextSub + 1
      && (if Store.CanCreate(w.db, email, repo, env.unsub.value, env.confirm.value) then
            && w'.db.subs == w.db.subs[w.db.nextSub := Store.Subscription(email, repo, false, env.unsub.value)]
            && w'.db.tokens == w.db.tokens[w.db.nextToken := Store.Token(env.confirm.value, w.db.nextSub)]
          else w'.db.subs == w.db.subs && w'.db.tokens == w.db.tokens)
      && (r != Success ==> w'.stream == w.stream)
  {
  }

  /** The confirmation: with a token the stream has not seen, a successful subscribe leaves exactly one
      new command, to this address and with this token, if it could be composed and reached the broker. */
  lemma SubscribeMails(w: World, email: string, repo: string, env: SubscribeEnv)
    requires Subscribe(w, email, repo, env).1 == Success
    requires !Bus.HasCopy(w.stream, "confirmation:" + env.confirm.value)
    ensures var log, log' := w.stream.log, Subscribe(w, email, repo, env).0.stream.log;
      if env.composed && env.mail.Applied() then
        && |log'| == |log| + 1 && log <= log'
        && log'[|log|].command == Bus.ConfirmationCommand(env.confirm.value, email)
        && log'[|log|].id == "confirmation:" + env.confirm.value && log'[|log|].at == w.stream.now
      else log' == log
  {
  }

  lemma ConfirmReplyIff(db: Store.Db, value: string, env: ConfirmEnv)
    ensures var r := Confirm(db, value, env).1;
      && (r == Success <==> value != "" && env.lookup && Store.TokenTaken(db, value) && env.confirm == Done)
      && (r == TokenNotFound <==> value == "" || (env.lookup && !Store.TokenTaken(db, value)))
      && (r == Failed <==>
            value != "" && (!env.lookup || (Store.TokenTaken(db, value) && env.confirm != Done)))
  {
  }

  /** A confirm changes at most the flag of the row its token belongs to, and takes at most that token,
      and the token only after the flag's update was reported. */
  lemma ConfirmChangesOnlyItsOwn(db: Store.Db, value: string, env: ConfirmEnv)
    requires Store.TokensUnique(db) && Store.TokensLive(db)
    ensures var db', r := Confirm(db, value, env).0, Confirm(db, value, env).1;
      && db'.watched == db.watched && db'.subs.Keys == db.subs.Keys
      && (forall i :: i in db.subs ==>
            || db'.subs[i] == db.subs[i]
            || (db'.subs[i] == db.subs[i].(confirmed := true)
                && exists t :: t in db.tokens && db.tokens[t] == Store.Token(value, i)))
      && (forall t :: t in db.tokens && t !in db'.tokens ==> db.tokens[t].value == value && r == Success)
      && (forall t :: t in db'.tokens ==> t in db.tokens && db'.tokens[t] == db.tokens[t])
      && (r == TokenNotFound ==> db' == db)
  {
    if value != "" && env.lookup && Store.TokenTaken(db, value) {
      var t := TokenRow(db, value);
      assert db.tokens[t] == Store.Token(value, db.tokens[t].sub);
    }
  }

  lemma UnsubscribeReplyIff(db: Store.Db, value: string, env: UnsubscribeEnv)
    ensures var r := Unsubscribe(db, value, env).1;
      && (r == Success <==> value != "" && env.lookup && Store.UnsubTaken(db, value) && env.delete == Done)
      && (r == TokenNotFound <==> value == "" || (env.lookup && !Store.UnsubTaken(db, value)))
      && (r == Failed <==> value != "" && (!env.lookup || (Store.UnsubTaken(db, value) && env.delete != Done)))
  {
  }

  /** The rows of `db` but the one with this unsubscribe token, and the tokens but that row's. */
  ghost predicate OnlyLeft(db: Store.Db, value: string, db': Store.Db) {
    && (forall i :: i in db'.subs <==> i in db.subs && db.subs[i].unsub != value)
    && (forall i :: i in db'.subs ==> db'.subs[i] == db.subs[i])
    && (forall t :: t in db'.tokens <==>
          t in db.tokens && !(db.tokens[t].sub in db.subs && db.subs[db.tokens[t].sub].unsub == value))
    && (forall t :: t in db'.tokens ==> db'.tokens[t] == db.tokens[t])
    && db'.watched == db.watched && db'.nextSub == db.nextSub && db'.nextToken == db.nextToken
  }

  /** An unsubscribe that answers success has removed exactly the row whose token was presented, with
      its tokens; one whose delete did not happen, or that finds nothing, has changed nothing. */
  lemma UnsubscribeRemovesItsRow(db: Store.Db, value: string, env: UnsubscribeEnv)
    requires Store.UnsubsUnique(db)
    ensures var db', r := Unsubscribe(db, value, env).0, Unsubscribe(db, value, env).1;
      && (r == Success ==> OnlyLeft(db, value, db') && Store.UnsubTaken(db, value))
      && (r == TokenNotFound ==> db' == db)
      && (r == Failed ==> db' == db || OnlyLeft(db, value, db'))
      && (env.delete == NotDone ==> db' == db)
      && (r != TokenNotFound && env.lookup && env.delete != NotDone ==> OnlyLeft(db, value, db'))
  {
  }

  // ---- what the calls mean to their users ----

  /** A successful subscribe leaves one new unconfirmed row with its one token, for a new pair of a
      well-formed repo, and touches no other row. */
  lemma SubscribeCreatesPending(w: World, email: string, repo: string, env: SubscribeEnv)
    requires Store.Integrity(w.db) && Subscribe(w, email, repo, env).1 == Success
    ensures var db := Subscribe(w, email, repo, env).0.db;
      && RepoFormat.MatchString(repo) && !Store.PairTaken(w.db, email, repo)
      && Store.Integrity(db)
      && db.subs == w.db.subs[w.db.nextSub := Store.Subscription(email, repo, false, env.unsub.value)]
      && w.db.nextSub !in w.db.subs
      && Store.TokenTaken(db, env.confirm.value)
      && db.tokens[TokenRow(db, env.confirm.value)].sub == w.db.nextSub
  {
    var db := Subscribe(w, email, repo, env).0.db;
    Store.CreateKeepsIntegrity(w.db, email, repo, env.unsub.value, env.confirm.value);
    assert db.tokens[w.db.nextToken] == Store.Token(env.confirm.value, w.db.nextSub);
    assert Store.TokenTaken(db, env.confirm.value);
  }

  /** Confirming works once: it confirms the token's own subscription, and when the token's delete
      went through, presenting it again finds nothing. */
  lemma ConfirmIsOneShot(db: Store.Db, value: string, env: ConfirmEnv, again: ConfirmEnv)
    requires Store.Integrity(db) && Confirm(db, value, env).1 == Success
    ensures Store.TokenTaken(db, value)
    ensures var i, db' := db.tokens[TokenRow(db, value)].sub, Confirm(db, value, env).0;
      && Store.Integrity(db') && i in db'.subs
      && db'.subs == db.subs[i := db.subs[i].(confirmed := true)]
      && (env.drop.Applied() ==> !Store.TokenTaken(db', value))
      && (env.drop.Applied() && again.lookup ==> Confirm(db', value, again) == (db', TokenNotFound))
      && (!env.drop.Applied() ==> db'.tokens == db.tokens)
  {
    var t := TokenRow(db, value);
    var i := db.tokens[t].sub;
    Store.ConfirmKeepsIntegrity(db, i);
    Store.DropTokenKeepsIntegrityIff(Store.Confirm(db, i), t);
  }

  /** `db2` is `db` with a row and tokens of its own under the id `n`. */
  ghost predicate ExtraRow(db: Store.Db, db2: Store.Db, n: nat) {
    && n in db2.subs && n !in db.subs
    && (forall i :: i != n ==> (i in db2.subs <==> i in db.subs))
    && (forall i :: i in db.subs ==> db2.subs[i] == db.subs[i])
    && (forall t :: t in db.tokens ==> t in db2.tokens && db2.tokens[t] == db.tokens[t] && db.tokens[t].sub != n)
    && (forall t :: t in db2.tokens && t !in db.tokens ==> db2.tokens[t].sub == n)
    && db2.watched == db.watched
  }

  lemma DeleteRestores(db: Store.Db, db2: Store.Db, n: nat)
    requires ExtraRow(db, db2, n)
    ensures var db3 := Store.Delete(db2, n);
            db3.subs == db.subs && db3.tokens == db.tokens && db3.watched == db.watched
  {
    var db3 := Store.Delete(db2, n);
    assert db3.subs == db.subs;
    assert db3.tokens == db.tokens;
  }

  lemma SubscribeAddsRow(w: World, email: string, repo: string, env: SubscribeEnv)
    requires Store.RowsOk(w.db) && Store.TokensLive(w.db) && Subscribe(w, email, repo, env).1 == Success
    ensures var db1, n := Subscribe(w, email, repo, env).0.db, w.db.nextSub;
      && ExtraRow(w.db, db1, n) && db1.subs[n].unsub == env.unsub.value
      && !Store.UnsubTaken(w.db, env.unsub.value)
      && Store.TokenTaken(db1, env.confirm.value) && db1.tokens[TokenRow(db1, env.confirm.value)].sub == n
  {
    var db1 := Subscribe(w, email, repo, env).0.db;
    assert db1.tokens[w.db.nextToken] == Store.Token(env.confirm.value, w.db.nextSub);
  }

  /** Confirming with the new row's own token touches nothing but that row and that token. */
  lemma ConfirmKeepsExtraRow(db: Store.Db, db1: Store.Db, n: nat, value: string, env: ConfirmEnv)
    requires ExtraRow(db, db1, n) && Store.TokenTaken(db1, value) && db1.tokens[TokenRow(db1, value)].sub == n
    ensures ExtraRow(db, Confirm(db1, value, env).0, n)
    ensures Confirm(db1, value, env).0.subs[n].unsub == db1.subs[n].unsub
  {
  }

  lemma NewRowIsFound(db: Store.Db, db2: Store.Db, n: nat, unsub: string)
    requires ExtraRow(db, db2, n) && db2.subs[n].unsub == unsub && !Store.UnsubTaken(db, unsub)
    ensures Store.UnsubTaken(db2, unsub) && UnsubRow(db2, unsub) == n
  {
  }

  /** Unsubscribing a fresh subscription, confirmed in between or not, brings both tables back. */
  lemma UnsubscribeUndoesSubscribe(w: World, email: string, repo: string, env: SubscribeEnv, cenv: ConfirmEnv,
                                   confirmed: bool, uenv: UnsubscribeEnv)
    requires Store.RowsOk(w.db) && Store.TokensLive(w.db) && Subscribe(w, email, repo, env).1 == Success
    requires env.unsub.value != "" && uenv.lookup && uenv.delete.Done?
    ensures var db1 := Subscribe(w, email, repo, env).0.db;
            var db2 := if confirmed then Confirm(db1, env.confirm.value, cenv).0 else db1;
            var (db3, r) := Unsubscribe(db2, env.unsub.value, uenv);
            r == Success && db3.subs == w.db.subs && db3.tokens == w.db.tokens && db3.watched == w.db.watched
  {
    var db1 := Subscribe(w, email, repo, env).0.db;
    var n := w.db.nextSub;
    SubscribeAddsRow(w, email, repo, env);
    ConfirmKeepsExtraRow(w.db, db1, n, env.confirm.value, cenv);
    var db2 := if confirmed then Confirm(db1, env.confirm.value, cenv).0 else db1;
    NewRowIsFound(w.db, db2, n, env.unsub.value);
    DeleteRestores(w.db, db2, n);
  }
}

/** The service object. */
module ServiceObject {
  import opened Common
  import WorldState
  import opened ServiceSpec
  import RepoFormat
  import Store
  import RepositoryObject
  import Publishing

  class Service {
    const subs: RepositoryObject.Repository
    const notifier: Publishing.EmailNotifier

    constructor (subs: RepositoryObject.Repository, notifier: Publishing.EmailNotifier)
      ensures this.subs == subs && this.notifier == notifier
    {
      this.subs, this.notifier := subs, notifier;
    }

    ghost function World(): WorldState.World
      reads subs, notifier.publisher.js
    {
      WorldState.World(subs.Value(), notifier.publisher.js.Value())
    }

    method Subscribe(email: string, repo: string, env: SubscribeEnv) returns (r: Reply)
      modifies subs, notifier.publisher.js`log
      ensures (World(), r) == ServiceSpec.Subscribe(old(World()), email, repo, env)
    {
      if !RepoFormat.MatchString(repo) {
        return InvalidRepoFormat;
      }
      if !env.lookup {
        return Failed;
      }
      var existing := subs.FindSubscriptionByEmailAndRepo(email, repo);
      if existing.Some? {
        return AlreadySubscribed;
      }
      match env.github {
        case Missing => return RepoNotFound;
        case RateLimited => return GithubRateLimited;
        case Unreachable => return Failed;
        case Exists =>
      }
      if env.unsub.None? || env.confirm.None? {
        return Failed;
      }
      var ok := subs.CreateSubscriptionWithToken(email, repo, env.unsub.value, env.confirm.value, env.create);
      if !ok {
        return Failed;
      }
      // A confirmation that could not be sent is only logged.
      var _ := notifier.SendConfirmation(email, env.confirm.value, env.composed, env.mail);
      r := Success;
    }

    /** The unique index on token values makes the lookup's row the only one. */
    method ConfirmSubscription(value: string, env: ConfirmEnv) returns (r: Reply)
      requires Store.TokensUnique(subs.Value())
      modifies subs
      ensures (subs.Value(), r) == ServiceSpec.Confirm(old(subs.Value()), value, env)
    {
      if value == "" {
        return TokenNotFound;
      }
      if !env.lookup {
        return Failed;
      }
      var token := subs.FindTokenByValue(value);
      if token.None? {
        return TokenNotFound;
      }
      assert token.value == TokenRow(subs.Value(), value);
      var ok := subs.ConfirmSubscription(subs.tokens[token.value].sub, env.confirm);
      if !ok {
        return Failed;
      }
      // A used token that could not be deleted is only logged.
      var _ := subs.DeleteToken(token.value, env.drop);
      r := Success;
    }

    method Unsubscribe(value: string, env: UnsubscribeEnv) returns (r: Reply)
      requires Store.UnsubsUnique(subs.Value())
      modifies subs
      ensures (subs.Value(), r) == ServiceSpec.Unsubscribe(old(subs.Value()), value, env)
    {
      if value == "" {
        return TokenNotFound;
      }
      if !env.lookup {
        return Failed;
      }
      var sub := subs.FindSubscriptionByUnsubscribeToken(value);
      if sub.None? {
        return TokenNotFound;
      }
      assert sub.value == UnsubRow(subs.Value(), value);
      var ok := subs.DeleteSubscription(sub.value, env.delete);
      r := if ok then Success else Failed;
    }
  }
}

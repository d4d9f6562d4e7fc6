/** The favorites hook: a local, optimistically updated list of favorite
    vocabulary ids, kept in step with the user's remote document by
    subscription pushes, plus a saving indicator and a one-slot notification
    that expires after 3000 ms. */
module FavoritesSync {
  import opened Optional
  import opened Sequences

  datatype Severity = Info | Error

  /** The three messages the hook posts. */
  datatype Message = PleaseLogin | FailedToSave | ErrorSyncing

  function MessageText(m: Message): string {
    match m
    case PleaseLogin => "Please login to save favorites"
    case FailedToSave => "Failed to save to cloud. Please check your connection."
    case ErrorSyncing => "Error syncing data"
  }

  /** The three messages read differently, so the toast tells the user
      which of the three situations occurred. */
  lemma MessagesDistinguishable(a: Message, b: Message)
    ensures MessageText(a) == MessageText(b) ==> a == b
  {
    if a != b {
      assert |MessageText(a)| != |MessageText(b)|;
    }
  }

  datatype Notification = Notification(message: Message, severity: Severity)

  const LoginRequired := Notification(PleaseLogin, Info)
  const SaveFailed := Notification(FailedToSave, Error)
  const SyncFailed := Notification(ErrorSyncing, Error)

  /** How the race between the remote write and the 3000 ms timer settled. */
  datatype WriteOutcome =
    | Saved      // the write resolved first
    | TimedOut   // the timer rejected first with "Timeout"
    | Failed     // the write rejected first with any other error

  /** The `favorites` field of a pushed document: an array of ids or anything else. */
  datatype FavoritesField = IdArray(ids: seq<int>) | NotAnArray

  /** One push of the subscription channel. */
  datatype DocSnapshot = Missing | Present(favorites: FavoritesField)

  /** A toggle whose remote write has not settled yet, with the values its
      closure captured when it began. */
  datatype PendingWrite = PendingWrite(id: int, isRemoving: bool, snapshot: seq<int>, optimistic: seq<int>)

  /** `favorites.filter(favId => favId !== id)`: every occurrence of `id`
      deleted, the other ids kept in order and with their multiplicities. */
  function Without(favorites: seq<int>, id: int): (r: seq<int>)
    ensures IsSubsequence(r, favorites)
    ensures multiset(r) == multiset(favorites)[id := 0]
  {
    if favorites == [] then []
    else
      assert favorites == [favorites[0]] + favorites[1..];
      var rest := Without(favorites[1..], id);
      if favorites[0] == id then
        SubsequenceSkip(rest, favorites[1..], favorites[0]);
        rest
      else
        SubsequenceCons(rest, favorites[1..], favorites[0]);
        [favorites[0]] + rest
  }

  /** The list a toggle applies optimistically: every occurrence of a present
      id removed, an absent id appended at the end. */
  function Toggled(favorites: seq<int>, id: int): (r: seq<int>)
    ensures id in r <==> id !in favorites
    ensures multiset(r)[id := 0] == multiset(favorites)[id := 0]
    ensures id in favorites ==> IsSubsequence(r, favorites)
    ensures id !in favorites ==> |r| == |favorites| + 1 && r[..|favorites|] == favorites && r[|favorites|] == id
  {
    if id in favorites then
      var r := Without(favorites, id);
      assert multiset(r)[id] == 0;
      r
    else
      var r := favorites + [id];
      assert r[..|favorites|] == favorites;
      r
  }

  /** The value a push gives the favorites: the pushed array, or `[]` when the
      document is missing or its field is not an array. */
  function PushedFavorites(snap: DocSnapshot): seq<int> {
    match snap
    case Present(IdArray(ids)) => ids
    case _ => []
  }

  /** A toggle keeps a duplicate-free list duplicate-free. */
  lemma ToggledKeepsNoDuplicates(favorites: seq<int>, id: int)
    requires NoDuplicates(favorites)
    ensures NoDuplicates(Toggled(favorites, id))
  {
    var r := Toggled(favorites, id);
    if id in favorites {
      SubsequenceNoDuplicates(r, favorites);
    } else {
      assert r == favorites + [id];
    }
  }

  /** Read as a set of ids, a toggle is the symmetric difference with `{id}`. */
  lemma ToggledAsSet(favorites: seq<int>, id: int)
    ensures (set x | x in Toggled(favorites, id)) ==
            if id in favorites then (set x | x in favorites) - {id}
            else (set x | x in favorites) + {id}
  {
    var r := Toggled(favorites, id);
    forall x | x != id ensures x in r <==> x in favorites {
      assert multiset(r)[id := 0][x] == multiset(favorites)[id := 0][x];
    }
  }

  /** Removing an id that does not occur changes nothing. */
  lemma {:induction false} WithoutAbsent(favorites: seq<int>, id: int)
    requires id !in favorites
    ensures Without(favorites, id) == favorites
    decreases |favorites|
  {
    if favorites != [] {
      WithoutAbsent(favorites[1..], id);
      assert favorites == [favorites[0]] + favorites[1..];
    }
  }

  /** Removing the id just appended gives back the list before it. */
  lemma {:induction false} WithoutAppended(favorites: seq<int>, id: int)
    requires id !in favorites
    ensures Without(favorites + [id], id) == favorites
    decreases |favorites|
  {
    if favorites == [] {
      assert Without([id], id) == Without([], id);
    } else {
      assert (favorites + [id])[1..] == favorites[1..] + [id];
      WithoutAppended(favorites[1..], id);
      assert favorites == [favorites[0]] + favorites[1..];
    }
  }

  /** Adding an absent id and toggling it again restores the list exactly;
      removing a present id and toggling it again restores the same set of
      ids, with the id moved to the end. */
  lemma ToggleTwice(favorites: seq<int>, id: int)
    ensures id !in favorites ==> Toggled(Toggled(favorites, id), id) == favorites
    ensures id in favorites ==>
      Toggled(Toggled(favorites, id), id) == Without(favorites, id) + [id]
  {
    if id !in favorites {
      assert Toggled(favorites, id) == favorites + [id];
      WithoutAppended(favorites, id);
    }
  }

  /** The state of the favorites hook. */
  class Sync {
    /** The signed-in user's id, `None` when nobody is signed in. */
    var user: Option<string>
    var favorites: seq<int>
    var isSaving: bool
    var notification: Option<Notification>
    /** The expiry timer armed for the current notification, by id. */
    var timer: Option<nat>
    /** The id the next armed timer gets. */
    var nextTimer: nat
    /** The toggles whose writes are in flight. */
    ghost var inFlight: multiset<PendingWrite>

    ghost predicate Valid()
      reads this
    {
      && (notification.Some? <==> timer.Some?)
      && (timer.Some? ==> timer.value < nextTimer)
    }

    /** The hook's initial state; with a user, the subscription is attached
        and the favorites wait for its first push. */
    constructor (user: Option<string>)
      ensures Valid()
      ensures this.user == user && favorites == [] && !isSaving && notification == None
      ensures inFlight == multiset{}
    {
      this.user := user;
      favorites := [];
      isSaving := false;
      notification := None;
      timer := None;
      nextTimer := 0;
      inFlight := multiset{};
    }

    /** Publishing a notification replaces the current one and (re)arms a
        fresh 3000 ms timer, cancelling the previous one. */
    method Notify(n: Notification)
      requires Valid()
      modifies this`notification, this`timer, this`nextTimer
      ensures Valid()
      ensures notification == Some(n)
      ensures timer == Some(old(nextTimer)) && nextTimer == old(nextTimer) + 1
    {
      notification := Some(n);
      timer := Some(nextTimer);
      nextTimer := nextTimer + 1;
    }

    /** Timer `t` fires. Only the armed timer clears the notification; a
        timer cancelled by a replacement never fires its callback. */
    method ExpireNotification(t: nat)
      requires Valid()
      modifies this`notification, this`timer
      ensures Valid()
      ensures old(timer) == Some(t) ==> notification == None && timer == None
      ensures old(timer) != Some(t) ==> notification == old(notification) && timer == old(timer)
    {
      if timer == Some(t) {
        notification := None;
        timer := None;
      }
    }

    /** The synchronous part of `toggleFavorite`: without a user, the login
        notification; otherwise the optimistic update, the saving indicator
        and the write put in flight, returned with the list captured now. */
    method BeginToggle(id: int) returns (pending: Option<PendingWrite>)
      requires Valid()
      modifies this
      ensures Valid()
      ensures user == old(user)
      ensures old(user).None? ==>
        && pending == None
        && favorites == old(favorites) && isSaving == old(isSaving)
        && notification == Some(LoginRequired) && timer == Some(old(nextTimer))
        && inFlight == old(inFlight)
      ensures old(user).Some? ==>
        && pending == Some(PendingWrite(id, id in old(favorites), old(favorites), Toggled(old(favorites), id)))
        && favorites == Toggled(old(favorites), id) && isSaving
        && notification == old(notification) && timer == old(timer) && nextTimer == old(nextTimer)
        && inFlight == old(inFlight) + multiset{pending.value}
    {
      if user.None? {
        Notify(LoginRequired);
        return None;
      }
      var isRemoving := id in favorites;
      var newFavorites := Toggled(favorites, id);
      var p := PendingWrite(id, isRemoving, favorites, newFavorites);
      favorites := newFavorites;
      isSaving := true;
      inFlight := inFlight + multiset{p};
      pending := Some(p);
    }

    /** The settlement of a write: only a non-timeout failure rolls back to
        the list captured when that toggle began and posts the error; every
        outcome clears the saving indicator. */
    method Settle(p: PendingWrite, outcome: WriteOutcome)
      requires Valid() && p in inFlight
      modifies this
      ensures Valid()
      ensures user == old(user) && !isSaving
      ensures inFlight == old(inFlight) - multiset{p}
      ensures outcome == Failed ==>
        favorites == p.snapshot && notification == Some(SaveFailed) && timer == Some(old(nextTimer))
      ensures outcome != Failed ==>
        favorites == old(favorites) && notification == old(notification) && timer == old(timer)
        && nextTimer == old(nextTimer)
    {
      if outcome == Failed {
        Notify(SaveFailed);
        favorites := p.snapshot;
      }
      isSaving := false;
      inFlight := inFlight - multiset{p};
    }

    /** `toggleFavorite` run to completion with nothing in between. */
    method Toggle(id: int, outcome: WriteOutcome)
      requires Valid()
      modifies this
      ensures Valid()
      ensures user == old(user) && inFlight == old(inFlight)
      ensures old(user).None? ==>
        favorites == old(favorites) && isSaving == old(isSaving) && notification == Some(LoginRequired)
      ensures old(user).Some? ==>
        && !isSaving
        && favorites == (if outcome == Failed then old(favorites) else Toggled(old(favorites), id))
        && notification == (if outcome == Failed then Some(SaveFailed) else old(notification))
    {
      var pending := BeginToggle(id);
      if pending.Some? {
        Settle(pending.value, outcome);
      }
    }

    /** A subscription push overwrites the favorites, whatever is in flight. */
    method OnPush(snap: DocSnapshot)
      requires Valid() && user.Some?
      modifies this`favorites
      ensures Valid()
      ensures favorites == PushedFavorites(snap)
    {
      match snap {
        case Present(IdArray(ids)) => favorites := ids;
        case _ => favorites := [];
      }
    }

    /** A subscription error posts the sync error and keeps the favorites. */
    method OnSyncError()
      requires Valid() && user.Some?
      modifies this`notification, this`timer, this`nextTimer
      ensures Valid()
      ensures notification == Some(SyncFailed) && timer == Some(old(nextTimer))
    {
      Notify(SyncFailed);
    }

    /** The subscription effect on a user change: signing out empties the
        favorites at once; a new user keeps them until the first push. */
    method OnUserChange(newUser: Option<string>)
      requires Valid()
      modifies this`user, this`favorites
      ensures Valid()
      ensures user == newUser
      ensures favorites == if newUser.None? then [] else old(favorites)
    {
      user := newUser;
      if newUser.None? {
        favorites := [];
      }
    }
  }
}

/** Event orders the favorites hook admits, replayed against its model. */
module FavoritesScenarios {
  import opened Optional
  import opened FavoritesSync

  /** Two overlapping toggles from the same list: adding `x` fails, adding
      `y` succeeds. The first rollback restores its own snapshot and erases
      `y`, whose write is still in flight and then succeeds; the saving
      indicator is already off while that write is pending. */
  method OverlappingTogglesLoseUpdate(initial: seq<int>, x: int, y: int)
    returns (local: seq<int>, savingWhileInFlight: bool)
    requires x !in initial && y !in initial && x != y
    ensures local == initial && y !in local
    ensures !savingWhileInFlight
  {
    var s := new Sync(Some("u1"));
    s.OnPush(Present(IdArray(initial)));
    var a := s.BeginToggle(x);
    var b := s.BeginToggle(y);
    s.Settle(a.value, Failed);
    savingWhileInFlight := s.isSaving;
    s.Settle(b.value, Saved);
    local := s.favorites;
  }

  /** A push confirms a removal while its write is still in flight; the write
      then fails and the rollback brings back the list the remote no longer
      holds. */
  method RollbackAfterPushRevertsRemote(initial: seq<int>, id: int, confirmed: seq<int>)
    returns (local: seq<int>)
    requires id in initial && confirmed == Toggled(initial, id)
    ensures local == initial && local != confirmed
  {
    var s := new Sync(Some("u1"));
    s.OnPush(Present(IdArray(initial)));
    var p := s.BeginToggle(id);
    s.OnPush(Present(IdArray(confirmed)));
    s.Settle(p.value, Failed);
    local := s.favorites;
  }
}

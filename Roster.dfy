/** The participant roster of the voice-room client (`clients` in
    frontend/src/hooks/useWebRTC.js): an ordered list of room members with a
    `muted` flag, changed only through the three updaters passed to
    `setClients`. */
module Roster {
  import opened Common

  type UserId = string

  /** The `user` object the relay sends with ADD_PEER, or the local user. */
  datatype Profile = Profile(id: UserId, name: string, avatar: string)

  /** A roster entry: `{ ...user, muted }`. */
  datatype Client = Client(profile: Profile, muted: bool) {
    function Id(): UserId { profile.id }
  }

  predicate HasId(clients: seq<Client>, id: UserId) {
    exists i :: 0 <= i < |clients| && clients[i].Id() == id
  }

  /** No two entries share an identifier. */
  predicate UniqueIds(clients: seq<Client>) {
    forall i, j :: 0 <= i < j < |clients| ==> clients[i].Id() != clients[j].Id()
  }

  /** `clients.find((c) => c.id === id)`: the first entry with that id. */
  function Find(clients: seq<Client>, id: UserId): (r: Option<nat>)
    ensures r.None? <==> !HasId(clients, id)
    ensures r.Some? ==> r.value < |clients| && clients[r.value].Id() == id
    ensures r.Some? ==> forall k :: 0 <= k < r.value ==> clients[k].Id() != id
  {
    if clients == [] then None
    else if clients[0].Id() == id then Some(0)
    else
      match Find(clients[1..], id)
      case None =>
        assert forall k :: 1 <= k < |clients| ==> clients[k] == clients[1..][k - 1];
        None
      case Some(k) => Some(k + 1)
  }

  /** The updater of `addNewClient`: an id already in the roster leaves it
      unchanged; otherwise the user is appended, muted. */
  function AddNewClient(clients: seq<Client>, user: Profile): (r: seq<Client>)
    ensures HasId(r, user.id)
    ensures |clients| <= |r| <= |clients| + 1 && r[..|clients|] == clients
    ensures |r| == |clients| <==> HasId(clients, user.id)
    ensures |r| > |clients| ==> r[|clients|] == Client(user, true)
  {
    if Find(clients, user.id).Some? then clients
    else
      var r := clients + [Client(user, true)];
      assert r[|clients|].Id() == user.id;
      r
  }

  /** Adding keeps identifiers unique. */
  lemma AddNewClientKeepsUnique(clients: seq<Client>, user: Profile)
    requires UniqueIds(clients)
    ensures UniqueIds(AddNewClient(clients, user))
  {
  }

  /** Adding the same identifier again, with any profile, is a no-op. */
  lemma AddNewClientIdempotent(clients: seq<Client>, user: Profile, again: Profile)
    requires again.id == user.id
    ensures AddNewClient(AddNewClient(clients, user), again) == AddNewClient(clients, user)
  {
  }

  /** The updater of `handleRemovePeer`: `clients.filter((c) => c.id !== userId)`. */
  function RemoveClient(clients: seq<Client>, userId: UserId): (r: seq<Client>)
    ensures |r| <= |clients|
    ensures forall c :: c in r <==> c in clients && c.Id() != userId
  {
    if clients == [] then []
    else if clients[0].Id() == userId then RemoveClient(clients[1..], userId)
    else [clients[0]] + RemoveClient(clients[1..], userId)
  }

  /** After removal no entry carries the identifier. */
  lemma RemoveClientRemovesId(clients: seq<Client>, userId: UserId)
    ensures !HasId(RemoveClient(clients, userId), userId)
  {
    var r := RemoveClient(clients, userId);
    forall i | 0 <= i < |r| ensures r[i].Id() != userId {
      assert r[i] in r;
    }
  }

  /** Removing an identifier that is not in the roster changes nothing. */
  lemma {:induction false} RemoveAbsentClient(clients: seq<Client>, userId: UserId)
    requires !HasId(clients, userId)
    ensures RemoveClient(clients, userId) == clients
  {
    if clients != [] {
      assert clients[0].Id() != userId;
      assert !HasId(clients[1..], userId) by {
        forall i | 0 <= i < |clients[1..]| ensures clients[1..][i].Id() != userId {
          assert clients[1..][i] == clients[i + 1];
        }
      }
      RemoveAbsentClient(clients[1..], userId);
      assert [clients[0]] + clients[1..] == clients;
    }
  }

  /** `a` stands at an earlier position of `s` than `b`. */
  predicate Precedes(s: seq<Client>, a: Client, b: Client) {
    exists p, q :: 0 <= p < q < |s| && s[p] == a && s[q] == b
  }

  /** Removal keeps the survivors in their order: two kept entries appear in
      the result in the order they had before. */
  lemma {:induction false} RemoveClientKeepsOrder(clients: seq<Client>, userId: UserId, i: nat, j: nat)
    requires i < j < |clients| && clients[i].Id() != userId && clients[j].Id() != userId
    ensures Precedes(RemoveClient(clients, userId), clients[i], clients[j])
  {
    var tail := clients[1..];
    var rt := RemoveClient(tail, userId);
    if i == 0 {
      assert clients[j] == tail[j - 1];
      assert clients[j] in rt;
      var q' :| 0 <= q' < |rt| && rt[q'] == clients[j];
      var r := RemoveClient(clients, userId);
      assert r == [clients[0]] + rt;
      assert 0 < q' + 1 < |r| && r[0] == clients[i] && r[q' + 1] == clients[j];
    } else {
      RemoveClientKeepsOrder(tail, userId, i - 1, j - 1);
      var p', q' :| 0 <= p' < q' < |rt| && rt[p'] == clients[i] && rt[q'] == clients[j];
      assert clients[i] == tail[i - 1] && clients[j] == tail[j - 1];
      var r := RemoveClient(clients, userId);
      if clients[0].Id() == userId {
        assert r == rt;
      } else {
        assert r == [clients[0]] + rt;
        assert r[p' + 1] == clients[i] && r[q' + 1] == clients[j];
      }
    }
  }

  /** Removing keeps identifiers unique. */
  lemma {:induction false} RemoveClientKeepsUnique(clients: seq<Client>, userId: UserId)
    requires UniqueIds(clients)
    ensures UniqueIds(RemoveClient(clients, userId))
  {
    if clients != [] {
      var tail := clients[1..];
      assert UniqueIds(tail) by {
        forall a, b | 0 <= a < b < |tail| ensures tail[a].Id() != tail[b].Id() {
          assert tail[a] == clients[a + 1] && tail[b] == clients[b + 1];
        }
      }
      RemoveClientKeepsUnique(tail, userId);
      var rt := RemoveClient(tail, userId);
      if clients[0].Id() != userId {
        var r := [clients[0]] + rt;
        forall k | 0 <= k < |rt| ensures rt[k].Id() != clients[0].Id() {
          assert rt[k] in rt;
          var m :| 0 <= m < |tail| && tail[m] == rt[k];
          assert tail[m] == clients[m + 1];
        }
        forall a, b | 0 <= a < b < |r| ensures r[a].Id() != r[b].Id() {
          if a == 0 {
            assert r[b] == rt[b - 1];
          } else {
            assert r[a] == rt[a - 1] && r[b] == rt[b - 1];
          }
        }
      }
    }
  }

  /** The updater of `handleMute`:
      `clients.map((c) => c.id === userId ? { ...c, muted: mute } : c)`. */
  function SetMuted(clients: seq<Client>, userId: UserId, mute: bool): (r: seq<Client>)
    ensures |r| == |clients|
    ensures forall k :: 0 <= k < |r| ==> r[k].profile == clients[k].profile
    ensures forall k :: 0 <= k < |r| && clients[k].Id() == userId ==> r[k].muted == mute
    ensures forall k :: 0 <= k < |r| && clients[k].Id() != userId ==> r[k] == clients[k]
  {
    if clients == [] then []
    else
      var head := if clients[0].Id() == userId then clients[0].(muted := mute) else clients[0];
      [head] + SetMuted(clients[1..], userId, mute)
  }

  /** Muting keeps identifiers unique and changes the flag of the matching
      entry only. */
  lemma SetMutedKeepsUnique(clients: seq<Client>, userId: UserId, mute: bool)
    requires UniqueIds(clients)
    ensures UniqueIds(SetMuted(clients, userId, mute))
  {
  }

  /** After muting, the roster lists the same identifiers in the same order,
      and the flag of `userId` is the one requested. */
  lemma SetMutedObserved(clients: seq<Client>, userId: UserId, mute: bool)
    requires HasId(clients, userId)
    ensures var r := SetMuted(clients, userId, mute);
      HasId(r, userId) && forall k :: 0 <= k < |r| && r[k].Id() == userId ==> r[k].muted == mute
  {
  }
}

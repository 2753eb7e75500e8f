/**
 * The Redis server the mission sequencer and its worker share: the key/value store holding
 * each mission's latest status record, the log of everything published on its channels,
 * the Celery task queue it brokers, and a pub/sub subscription.
 */
module RedisModel {
  import opened Wrappers
  import opened Missions

  /** The effect a publication has on the status store if the writer stored the same record it
      published: a status event on `mission_status` overwrites that mission's record. */
  function Apply(store: map<string, StatusRecord>, p: Publication): map<string, StatusRecord> {
    if p.channel == StatusChannel && p.message.StatusEvent? then
      store[StatusKey(p.message.missionId) := p.message.record]
    else
      store
  }

  /** The store obtained by applying every publication of `log`, oldest first. */
  function Replay(store: map<string, StatusRecord>, log: seq<Publication>): map<string, StatusRecord>
    decreases |log|
  {
    if log == [] then store else Apply(Replay(store, log[..|log| - 1]), log[|log| - 1])
  }

  lemma ReplaySnoc(store: map<string, StatusRecord>, log: seq<Publication>, p: Publication)
    ensures Replay(store, log + [p]) == Apply(Replay(store, log), p)
  {
    assert (log + [p])[..|log|] == log;
  }

  /** Replaying two logs one after the other is replaying their concatenation. */
  lemma {:induction false} ReplayAppend(store: map<string, StatusRecord>, a: seq<Publication>, b: seq<Publication>)
    ensures Replay(store, a + b) == Replay(Replay(store, a), b)
    decreases |b|
  {
    if b == [] {
      assert a + b == a;
    } else {
      var init := b[..|b| - 1];
      var last := b[|b| - 1];
      assert b == init + [last];
      assert a + b == (a + init) + [last];
      ReplayAppend(store, a, init);
      ReplaySnoc(store, a + init, last);
      ReplaySnoc(Replay(store, a), init, last);
    }
  }

  /** Publications on other channels, or of other messages, leave the replayed store alone. */
  predicate NoStatusEvents(log: seq<Publication>) {
    forall k :: 0 <= k < |log| ==> log[k].channel != StatusChannel || !log[k].message.StatusEvent?
  }

  lemma {:induction false} ReplayIgnoresOtherChannels(store: map<string, StatusRecord>, log: seq<Publication>)
    requires NoStatusEvents(log)
    ensures Replay(store, log) == store
    decreases |log|
  {
    if log != [] {
      ReplayIgnoresOtherChannels(store, log[..|log| - 1]);
    }
  }

  /** After a log that ends in a status event for mission `id`, the store holds that event's record. */
  lemma LastStatusEventWins(store: map<string, StatusRecord>, log: seq<Publication>, id: string, rec: StatusRecord)
    requires log != [] && log[|log| - 1] == Publication(StatusChannel, StatusEvent(id, rec))
    ensures StatusKey(id) in Replay(store, log) && Replay(store, log)[StatusKey(id)] == rec
  {
  }

  /** Outcome of `redis_client.ping()`: a reply, a `redis.exceptions.ConnectionError`, or any
      other Redis error (a `TimeoutError`, for one). */
  datatype PingResult = Pong | ConnectionFailure | OtherFailure

  class Redis {
    /** Status records by key. Redis holds their JSON text; the model holds the decoded record. */
    var store: map<string, StatusRecord>
    /** Every publication, oldest first. */
    var published: seq<Publication>
    /** Plans handed to Celery with `execute_mission.delay`, oldest first. */
    var tasks: seq<MissionPlan>
    /** What the next ping answers. */
    var health: PingResult

    constructor (store: map<string, StatusRecord>, health: PingResult)
      ensures this.store == store && this.health == health
      ensures published == [] && tasks == []
    {
      this.store := store;
      this.health := health;
      published := [];
      tasks := [];
    }

    /** `SET key value`. */
    method Set(key: string, rec: StatusRecord)
      modifies this
      ensures store == old(store)[key := rec]
      ensures published == old(published) && tasks == old(tasks) && health == old(health)
    {
      store := store[key := rec];
    }

    /** `PUBLISH channel message`. */
    method Publish(channel: string, message: Message)
      modifies this
      ensures published == old(published) + [Publication(channel, message)]
      ensures store == old(store) && tasks == old(tasks) && health == old(health)
    {
      published := published + [Publication(channel, message)];
    }

    /** `EXISTS key`. */
    method Exists(key: string) returns (found: bool)
      ensures found <==> key in store
    {
      found := key in store;
    }

    /** `GET key`: None when the key is not set. */
    method Get(key: string) returns (value: Option<StatusRecord>)
      ensures key in store ==> value == Some(store[key])
      ensures key !in store ==> value == None
    {
      value := if key in store then Some(store[key]) else None;
    }

    method Ping() returns (answer: PingResult)
      ensures answer == health
    {
      answer := health;
    }

    /** Celery's `delay`: the plan is queued for a worker. */
    method Delay(plan: MissionPlan)
      modifies this
      ensures tasks == old(tasks) + [plan]
      ensures store == old(store) && published == old(published) && health == old(health)
    {
      tasks := tasks + [plan];
    }
  }

  /** A message as redis-py's `get_message()` returns it: `type` ("subscribe", "message", ...) and `data`. */
  datatype PubSubMessage = PubSubMessage(kind: string, data: string)

  /** A pub/sub connection. `pending` holds what the server has delivered and nobody has read yet. */
  class Subscription {
    const channel: string
    var pending: seq<PubSubMessage>
    var subscribed: bool
    var closed: bool

    /** `pubsub()` followed by `subscribe(channel)`; `delivered` is what the server sends it, in
        order, starting with the subscribe confirmation. */
    constructor (channel: string, delivered: seq<PubSubMessage>)
      ensures this.channel == channel && pending == delivered
      ensures subscribed && !closed
    {
      this.channel := channel;
      pending := delivered;
      subscribed := true;
      closed := false;
    }

    /** Non-blocking `get_message()`: the oldest unread message, or None when none is waiting. */
    method GetMessage() returns (m: Option<PubSubMessage>)
      modifies this
      ensures old(pending) == [] ==> m == None && pending == []
      ensures old(pending) != [] ==> m == Some(old(pending)[0]) && pending == old(pending)[1..]
      ensures subscribed == old(subscribed) && closed == old(closed)
    {
      if pending == [] {
        m := None;
      } else {
        m := Some(pending[0]);
        pending := pending[1..];
      }
    }

    method Unsubscribe()
      modifies this
      ensures !subscribed && pending == old(pending) && closed == old(closed)
    {
      subscribed := false;
    }

    method Close()
      modifies this
      ensures closed && pending == old(pending) && subscribed == old(subscribed)
    {
      closed := true;
    }
  }
}

/** The inbound webhook endpoint: idempotency lock and record, unique event row, and the two cleanups. */
module Webhooks {
  import opened Clock
  import opened Wrappers
  import opened WebhookSecurity

  /** What the unique constraint of `webhook_events` covers. */
  datatype Event = Event(provider: string, eventId: string)

  datatype Status = Accepted | Duplicate

  /** A response body with its status code, 200 for accepted and 409 for duplicate. */
  datatype Body = Body(status: Status, event: Event)

  /** A row of `idempotency_records`, filed under its unique scope key. */
  datatype Record = Record(body: Body, expiresAt: Time)

  /** `events` holds each row's `received_at`. */
  datatype Tables = Tables(records: map<string, Record>, events: map<Event, Time>)

  /** `parse` stands for the JSON schema of the body. */
  datatype Settings = Settings(policy: Policy, parse: seq<Byte> -> Option<Event>, ttlSeconds: nat, retentionDays: nat, maxBody: nat)
  {
    function Retention(): Time {
      retentionDays * 86_400 * SECOND
    }
  }

  /** Only `Answered` carries a webhook response body; the others are error responses. */
  datatype Reply = Answered(record: Record) | TooLarge | InProgress | Unauthorized | RateLimited | ServerError

  datatype Begun = Replay(record: Record) | Locked | Busy

  // ---- single statements ----

  function Cached(records: map<string, Record>, scope: string, clock: Time): Option<Record> {
    if scope in records && records[scope].expiresAt > clock then Some(records[scope]) else None
  }

  function CleanedRecords(records: map<string, Record>, cutoff: Time): map<string, Record> {
    map scope | scope in records && records[scope].expiresAt >= cutoff :: records[scope]
  }

  function CleanedEvents(events: map<Event, Time>, cutoff: Time): map<Event, Time> {
    map e | e in events && events[e] >= cutoff :: events[e]
  }

  function SecondLook(found: Option<Record>): Begun {
    if found.Some? then Replay(found.value) else Busy
  }

  // ---- a whole request without interference, at one clock reading ----

  /** `store_response`: an expired row that has not been cleaned up still blocks the insert, and is not returned. */
  function Stored(s: Settings, t: Tables, scope: string, body: Body, now: Time): (Tables, Reply) {
    if scope !in t.records then
      var record := Record(body, now + s.ttlSeconds * SECOND);
      (t.(records := t.records[scope := record]), Answered(record))
    else if Cached(t.records, scope, now).Some? then (t, Answered(t.records[scope]))
    else (t, ServerError)
  }

  /** The checks between taking the lock and touching the event table; comparing a signature that is not ASCII raises. */
  function Refusal(s: Settings, delivery: Delivery, limited: bool, now: Time): (refusal: Option<Reply>)
    ensures refusal.None? ==> s.parse(delivery.body).Some? && !limited
    ensures refusal.Some? ==> !refusal.value.Answered?
  {
    var verified := VerifyInbound(delivery, s.policy, Seconds(now));
    if verified.Failure? then Some(if verified.error.NotAscii? then ServerError else Unauthorized)
    else if s.parse(delivery.body).None? then Some(ServerError)  // the schema error is not one the application handles
    else if limited then Some(RateLimited)
    else None
  }

  function Filed(t: Tables, event: Event, now: Time): Tables {
    if event in t.events then t else t.(events := t.events[event := now])
  }

  function NewBody(t: Tables, event: Event): Body {
    Body(if event in t.events then Duplicate else Accepted, event)
  }

  function Handled(s: Settings, t: Tables, locked: bool, scope: string, delivery: Delivery, limited: bool, now: Time): (Tables, Reply) {
    if |delivery.body| > s.maxBody then (t, TooLarge)
    else if Cached(t.records, scope, now).Some? then (t, Answered(t.records[scope]))
    else if locked then (t, InProgress)
    else
      var refusal := Refusal(s, delivery, limited, now);
      if refusal.Some? then (t, refusal.value)
      else
        var event := s.parse(delivery.body).value;
        Stored(s, Filed(t, event, now), scope, NewBody(t, event), now)
  }

  // ---- what contracts say of a request, without the functions it is made of ----

  /** An answer under this key has not expired. */
  ghost predicate Answerable(records: map<string, Record>, scope: string, now: Time) {
    scope in records && now < records[scope].expiresAt
  }

  /** The answer a first request is given: a new one, filed for its time to live. */
  ghost function FirstAnswer(s: Settings, events: map<Event, Time>, event: Event, now: Time): Record {
    Record(Body(if event in events then Duplicate else Accepted, event), now + s.ttlSeconds * 1_000_000)
  }

  /** The event is on file from now on, if it was not already. */
  ghost predicate OnFile(before: map<Event, Time>, after: map<Event, Time>, event: Event, now: Time) {
    && after.Keys == before.Keys + {event}
    && forall e :: e in after ==> after[e] == if e in before then before[e] else now
  }

  /** The reply to a request without interference, and what it leaves in the tables. */
  ghost predicate Right(s: Settings, t: Tables, locked: bool, scope: string, delivery: Delivery, limited: bool, now: Time,
                        t': Tables, reply: Reply) {
    var verified := VerifyInbound(delivery, s.policy, Seconds(now));
    var event := s.parse(delivery.body);
    if |delivery.body| > s.maxBody then reply == TooLarge && t' == t
    else if Answerable(t.records, scope, now) then reply == Answered(t.records[scope]) && t' == t
    else if locked then reply == InProgress && t' == t
    else if verified.Failure? then reply == (if verified.error == NotAscii then ServerError else Unauthorized) && t' == t
    else if event == None then reply == ServerError && t' == t
    else if limited then reply == RateLimited && t' == t
    else
      && OnFile(t.events, t'.events, event.value, now)
      && (if scope in t.records then reply == ServerError && t'.records == t.records
          else reply == Answered(FirstAnswer(s, t.events, event.value, now))
               && t'.records == t.records[scope := FirstAnswer(s, t.events, event.value, now)])
  }

  lemma HandledRight(s: Settings, t: Tables, locked: bool, scope: string, delivery: Delivery, limited: bool, now: Time)
    ensures var (t', reply) := Handled(s, t, locked, scope, delivery, limited, now);
            Right(s, t, locked, scope, delivery, limited, now, t', reply)
  {
    hide VerifyInbound;
    if s.parse(delivery.body).Some? {
      var event := s.parse(delivery.body).value;
      assert OnFile(t.events, Filed(t, event, now).events, event, now);
    }
  }

  class Ingress {
    const settings: Settings
    var records: map<string, Record>
    var events: map<Event, Time>
    var locks: set<string>  // Redis keys that have not expired

    constructor (settings: Settings)
      ensures this.settings == settings && records == map[] && events == map[] && locks == {}
    {
      this.settings, records, events, locks := settings, map[], map[], {};
    }

    method TryAcquireLock(scope: string) returns (acquired: bool)
      modifies this`locks
      ensures acquired <==> scope !in old(locks)
      ensures locks == old(locks) + {scope}
    {
      acquired := scope !in locks;
      locks := locks + {scope};  // SET NX leaves a present key alone
    }

    method ReleaseLock(scope: string)
      modifies this`locks
      ensures locks == old(locks) - {scope}
    {
      locks := locks - {scope};
    }

    method BeginIdempotentRequest(scope: string, now: Time) returns (begun: Begun)
      modifies this`locks
      ensures begun.Replay? <==> Cached(records, scope, now).Some?
      ensures begun.Replay? <==> Answerable(records, scope, now)
      ensures begun.Replay? ==> begun.record == records[scope]
      ensures begun == Locked <==> !Answerable(records, scope, now) && scope !in old(locks)
      ensures locks == if begun == Locked then old(locks) + {scope} else old(locks)
    {
      if Cached(records, scope, now).Some? {
        return Replay(records[scope]);
      }
      var acquired := TryAcquireLock(scope);
      if !acquired {
        return SecondLook(Cached(records, scope, now));  // the holder of the lock may have finished
      }
      begun := Locked;
    }

    method StoreResponse(scope: string, body: Body, now: Time) returns (stored: Option<Record>)
      modifies this`records
      ensures scope !in old(records) ==>
                stored == Some(Record(body, now + settings.ttlSeconds * SECOND)) && records == old(records)[scope := stored.value]
      ensures scope in old(records) ==> records == old(records) && stored == Cached(records, scope, now)
      ensures scope in old(records) ==> stored == if Answerable(records, scope, now) then Some(records[scope]) else None
    {
      if scope in records {
        return Cached(records, scope, now);
      }
      var record := Record(body, now + settings.ttlSeconds * SECOND);
      records := records[scope := record];
      stored := Some(record);
    }

    method PersistWebhookEvent(event: Event, now: Time) returns (inserted: bool)
      modifies this`events
      ensures inserted <==> event !in old(events)
      ensures events == if inserted then old(events)[event := now] else old(events)
    {
      inserted := event !in events;
      if inserted {
        events := events[event := now];
      }
    }

    method InboundWebhook(scope: string, delivery: Delivery, limited: bool, now: Time) returns (reply: Reply)
      modifies this`records, this`events, this`locks
      ensures (Tables(records, events), reply)
              == Handled(settings, Tables(old(records), old(events)), scope in old(locks), scope, delivery, limited, now)
      ensures locks == old(locks)
      ensures Right(settings, Tables(old(records), old(events)), scope in old(locks), scope, delivery, limited, now,
                    Tables(records, events), reply)
    {
      hide Refusal, VerifyInbound, Right;
      HandledRight(settings, Tables(records, events), scope in locks, scope, delivery, limited, now);
      if |delivery.body| > settings.maxBody {
        return TooLarge;
      }
      var begun := BeginIdempotentRequest(scope, now);
      match begun {
        case Replay(record) =>
          return Answered(record);
        case Busy =>
          return InProgress;
        case Locked =>
      }
      var refusal := Refusal(settings, delivery, limited, now);
      if refusal.Some? {
        reply := refusal.value;
      } else {
        var event := settings.parse(delivery.body).value;
        var inserted := PersistWebhookEvent(event, now);
        var stored := StoreResponse(scope, Body(if inserted then Accepted else Duplicate, event), now);
        reply := if stored.Some? then Answered(stored.value) else ServerError;
      }
      ReleaseLock(scope);
    }

    method CleanupExpiredRecords(now: Time) returns (deleted: nat)
      modifies this`records
      ensures records == CleanedRecords(old(records), now) && deleted == |old(records)| - |records|
      ensures forall scope :: Cached(records, scope, now) == Cached(old(records), scope, now)
      ensures forall scope :: scope in records <==> scope in old(records) && now <= old(records)[scope].expiresAt
      ensures forall scope :: scope in records ==> records[scope] == old(records)[scope]
    {
      var kept := CleanedRecords(records, now);
      assert kept.Keys <= records.Keys;
      Fewer(kept.Keys, records.Keys);
      deleted := |records| - |kept|;
      records := kept;
    }

    method CleanupOldEvents(now: Time) returns (deleted: nat)
      modifies this`events
      ensures events == CleanedEvents(old(events), now - settings.Retention()) && deleted == |old(events)| - |events|
      ensures forall e :: e in events <==> e in old(events) && now <= old(events)[e] + settings.retentionDays * 24 * 60 * 60 * 1_000_000
      ensures forall e :: e in events ==> events[e] == old(events)[e]
    {
      var kept := CleanedEvents(events, now - settings.Retention());
      assert kept.Keys <= events.Keys;
      Fewer(kept.Keys, events.Keys);
      deleted := |events| - |kept|;
      events := kept;
    }
  }

  lemma {:induction false} Fewer<T>(a: set<T>, b: set<T>)
    requires a <= b
    ensures |a| <= |b|
  {
    if a != {} {
      var x :| x in a;
      Fewer(a - {x}, b - {x});
    }
  }

  /** Until its record expires, every further request under the key gets the first answer and changes nothing. */
  lemma RetryGetsFirstAnswer(s: Settings, t: Tables, locked: bool, scope: string, delivery: Delivery, limited: bool, now: Time,
                             locked': bool, delivery': Delivery, limited': bool, now': Time)
    requires Handled(s, t, locked, scope, delivery, limited, now).1.Answered?
    requires |delivery'.body| <= s.maxBody
    requires now' < Handled(s, t, locked, scope, delivery, limited, now).1.record.expiresAt
    ensures var (t', reply) := Handled(s, t, locked, scope, delivery, limited, now);
            Handled(s, t', locked', scope, delivery', limited', now') == (t', reply)
  {
    hide VerifyInbound;
  }

  /** A request for an event that is still on file is never newly accepted, whatever key it comes under. */
  lemma FiledEventIsDuplicate(s: Settings, t: Tables, locked: bool, scope: string, delivery: Delivery, limited: bool, now: Time)
    ensures var (t', reply) := Handled(s, t, locked, scope, delivery, limited, now);
            && (forall e :: e in t.events ==> e in t'.events && t'.events[e] == t.events[e])
            && (reply.Answered? && Cached(t.records, scope, now).None? ==>
                  && s.parse(delivery.body) == Some(reply.record.body.event)
                  && (reply.record.body.status == Duplicate <==> reply.record.body.event in t.events)
                  && reply.record.body.event in t'.events)
  {
    hide VerifyInbound;
  }

  /**
   A request that gets past the cache, the lock and the checks fails exactly when its key has an expired row that the
   cleanup has not removed; its event is on file all the same.
   */
  lemma FailsOverExpiredRow(s: Settings, t: Tables, scope: string, delivery: Delivery, now: Time)
    requires |delivery.body| <= s.maxBody && Cached(t.records, scope, now).None? && Refusal(s, delivery, false, now).None?
    ensures var (t', reply) := Handled(s, t, false, scope, delivery, false, now);
            && (reply == ServerError <==> scope in t.records)
            && s.parse(delivery.body).value in t'.events
  {
    hide VerifyInbound;
  }
}

/**
 * The DNS-to-mDNS relay: one unicast query is relayed to the multicast
 * group when it asks about the `.local.` zone (section 3 of RFC 6762),
 * the single reply is passed back with the client's transaction id
 * (section 4.1.1 of RFC 1035), and when no reply comes the last answer
 * cached for the same question is served instead.
 *
 * The DNS codec is abstract: a datagram arrives as its bytes together
 * with what the codec made of them (`None` when parsing raised), and the
 * multicast round trip is an outcome given as input.
 */
module MdnsProxy {
  import opened Wrappers
  import opened Text

  type Byte = b: int | 0 <= b < 0x100
  type Bytes = seq<Byte>
  type U16 = x: int | 0 <= x < 0x1_0000

  datatype Endpoint = Endpoint(host: string, port: int)

  /** The mDNS multicast group and port (section 5.1 of RFC 6762). */
  const MdnsGroup: Endpoint := Endpoint("224.0.0.251", 5353)
  const LocalSuffix: string := ".local."
  /** Exit status when another live instance holds the PID file. */
  const AlreadyRunningStatus: int := 1

  /** A question: the name as text (absolute, with its trailing dot) and the type code. */
  datatype Question = Question(name: string, rdtype: U16)
  /** An answer record set, carried through unexamined. */
  datatype RRset = RRset(name: string, rdtype: U16, ttl: int, rdata: seq<string>)
  datatype Msg = Msg(id: U16, question: seq<Question>, answer: seq<RRset>)

  /**
   * How the multicast exchange went. `ForwardFailed`: multicasting the query
   * raised, which only the loop's outer handler catches. `Reply`: a reply
   * arrived and parsed; `delivered` is false when encoding it or sending it
   * back to the client raised. `Timeout`: no reply within the wait.
   * `Failure`: receiving or parsing the reply raised anything else.
   */
  datatype Outcome = ForwardFailed | Reply(msg: Msg, delivered: bool) | Timeout | Failure

  datatype Datagram<T> = Datagram(dest: Endpoint, payload: T)

  /** The resolution cache: one record set per key, no expiry. */
  type Cache = map<string, RRset>

  /** The cache key: the question name, a colon, and the type code in decimal. */
  function CacheKey(q: Question): (k: string)
    ensures StartsWith(k, q.name + ":") && EndsWith(k, Digits(q.rdtype))
  {
    q.name + ":" + DecimalText(q.rdtype)
  }

  /**
   * Distinct questions never share a key, even though the key is a plain
   * string and names may hold colons: the digits after the last colon
   * fix the type code, and what precedes that colon is the name.
   */
  lemma CacheKeyInjective(a: Question, b: Question)
    requires CacheKey(a) == CacheKey(b)
    ensures a == b
  {
    var k := CacheKey(a);
    var da, db := Digits(a.rdtype), Digits(b.rdtype);
    assert ':' !in da && ':' !in db;
    assert k == a.name + [':'] + da;
    assert k == b.name + [':'] + db;
    LastIndexAfter(a.name, ':', da);
    LastIndexAfter(b.name, ':', db);
    assert a.name == k[..|a.name|] == b.name;
    assert da == k[|a.name| + 1..] == db;
    DigitsInjective(a.rdtype, b.rdtype);
  }

  predicate IsLocal(name: string)
  {
    EndsWith(name, LocalSuffix)
  }

  /** The codec's `make_response`: same id and question section, no answers yet. */
  function MakeResponse(query: Msg): (r: Msg)
    ensures r.id == query.id && r.question == query.question && r.answer == []
  {
    Msg(query.id, query.question, [])
  }

  /** `create_cached_response`: a response from the cache, or `None` when the key is absent. */
  function CachedResponse(cache: Cache, query: Msg): (r: Option<Msg>)
    ensures r.Some? <==> |query.question| > 0 && CacheKey(query.question[0]) in cache
    ensures r.Some? ==> r.value.id == query.id && r.value.question == query.question
    ensures r.Some? ==> r.value.answer == [cache[CacheKey(query.question[0])]]
  {
    if |query.question| == 0 then None
    else
      var key := CacheKey(query.question[0]);
      if key !in cache then None
      else
        var response := MakeResponse(query);
        Some(response.(answer := response.answer + [cache[key]]))
  }

  /** A parsed query the relay forwards: it has a question, and the first one is in the `.local.` zone. */
  predicate Relayed(parsed: Option<Msg>)
  {
    parsed.Some? && |parsed.value.question| > 0 && IsLocal(parsed.value.question[0].name)
  }

  /** What one received datagram leads to: what is multicast, what goes back to the client, the new cache. */
  datatype Effect = Effect(forwarded: Option<Datagram<Bytes>>, sent: Option<Datagram<Msg>>, cache: Cache)

  /**
   * `sent` is the cache's answer to `query`, addressed to `client`: the
   * entry of the first question under the query's own id and question
   * section, or nothing when the cache has no entry for it.
   */
  predicate AnsweredFromCache(sent: Option<Datagram<Msg>>, cache: Cache, query: Msg, client: Endpoint)
    requires |query.question| > 0
  {
    var key := CacheKey(query.question[0]);
    && (sent.Some? <==> key in cache)
    && (sent.Some? ==> sent.value == Datagram(client, Msg(query.id, query.question, [cache[key]])))
  }

  /** One iteration of the serving loop for a received datagram. */
  function Relay(cache: Cache, data: Bytes, parsed: Option<Msg>, client: Endpoint, outcome: Outcome): (e: Effect)
    // unparsable, question-less and non-local queries: nothing at all happens
    ensures !Relayed(parsed) ==> e == Effect(None, None, cache)
    // a multicast that raises ends the iteration: the cache is not consulted
    ensures Relayed(parsed) && outcome.ForwardFailed? ==> e == Effect(None, None, cache)
    // otherwise the query is multicast as the very bytes received
    ensures Relayed(parsed) && !outcome.ForwardFailed? ==> e.forwarded == Some(Datagram(MdnsGroup, data))
    // a reply goes back to the client unchanged except for the client's transaction id
    ensures Relayed(parsed) && outcome.Reply? && outcome.delivered ==>
      e.sent == Some(Datagram(client, outcome.msg.(id := parsed.value.id)))
    // only the first answer is cached, delivered or not, and a reply without answers leaves the cache alone
    ensures Relayed(parsed) && outcome.Reply? && |outcome.msg.answer| > 0 ==>
      e.cache == cache[CacheKey(parsed.value.question[0]) := outcome.msg.answer[0]]
    ensures Relayed(parsed) && outcome.Reply? && |outcome.msg.answer| == 0 ==> e.cache == cache
    // a reply that cannot be sent back falls back to the cache as just updated
    ensures Relayed(parsed) && outcome.Reply? && !outcome.delivered ==>
      AnsweredFromCache(e.sent, e.cache, parsed.value, client)
    // without a reply, the client is answered from the unchanged cache or not at all
    ensures Relayed(parsed) && (outcome.Timeout? || outcome.Failure?) ==>
      e.cache == cache && AnsweredFromCache(e.sent, cache, parsed.value, client)
  {
    if !Relayed(parsed) then Effect(None, None, cache)
    else
      var query := parsed.value;
      var forwarded := Some(Datagram(MdnsGroup, data));
      match outcome
      case ForwardFailed => Effect(None, None, cache)
      case Reply(m, delivered) =>
        var response := m.(id := query.id);
        var cache' := if |response.answer| > 0
                      then cache[CacheKey(query.question[0]) := response.answer[0]]
                      else cache;
        if delivered then Effect(forwarded, Some(Datagram(client, response)), cache')
        else Effect(forwarded, Fallback(cache', query, client), cache')
      case _ =>
        Effect(forwarded, Fallback(cache, query, client), cache)
  }

  /** The handlers' fallback: the cached response for `query`, sent to `client` when there is one. */
  function Fallback(cache: Cache, query: Msg, client: Endpoint): Option<Datagram<Msg>>
  {
    var cached := CachedResponse(cache, query);
    if cached.Some? then Some(Datagram(client, cached.value)) else None
  }

  /**
   * A reply with answers that cannot be sent back is still not lost: the
   * fallback finds the entry just written and sends its first answer
   * under the client's id.
   */
  lemma UndeliveredReplyServesOwnAnswer(cache: Cache, data: Bytes, query: Msg, client: Endpoint, reply: Msg)
    requires Relayed(Some(query)) && |reply.answer| > 0
    ensures Relay(cache, data, Some(query), client, Reply(reply, false)).sent ==
            Some(Datagram(client, Msg(query.id, query.question, [reply.answer[0]])))
  {
  }

  /**
   * The key written on success is the key read on fallback: after a reply
   * with answers, a later query with the same first question that gets no
   * reply is answered with that reply's first answer and its own id.
   */
  lemma SuccessThenTimeoutServesCached(cache: Cache, d1: Bytes, q1: Msg, c1: Endpoint, reply: Msg, delivered: bool,
                                       d2: Bytes, q2: Msg, c2: Endpoint, outcome2: Outcome)
    requires Relayed(Some(q1)) && |reply.answer| > 0
    requires |q2.question| > 0 && q2.question[0] == q1.question[0]
    requires outcome2.Timeout? || outcome2.Failure?
    ensures var e2 := Relay(Relay(cache, d1, Some(q1), c1, Reply(reply, delivered)).cache, d2, Some(q2), c2, outcome2);
            e2.sent == Some(Datagram(c2, Msg(q2.id, q2.question, [reply.answer[0]])))
  {
  }

  /** Resolving the same question twice leaves only the second first-answer retrievable. */
  lemma LastWriteWins(cache: Cache, d1: Bytes, q1: Msg, c1: Endpoint, r1: Msg, b1: bool,
                      d2: Bytes, q2: Msg, c2: Endpoint, r2: Msg, b2: bool)
    requires Relayed(Some(q1)) && |r1.answer| > 0 && |r2.answer| > 0
    requires |q2.question| > 0 && q2.question[0] == q1.question[0]
    ensures var e2 := Relay(Relay(cache, d1, Some(q1), c1, Reply(r1, b1)).cache, d2, Some(q2), c2, Reply(r2, b2));
            e2.cache == cache[CacheKey(q1.question[0]) := r2.answer[0]]
  {
  }

  /** A step changes the cached entry of its own question at most: every other question's entry is kept. */
  lemma OtherQuestionsUnaffected(cache: Cache, data: Bytes, parsed: Option<Msg>, client: Endpoint,
                                 outcome: Outcome, other: Question)
    requires !(Relayed(parsed) && other == parsed.value.question[0])
    ensures var e := Relay(cache, data, parsed, client, outcome);
            (CacheKey(other) in e.cache <==> CacheKey(other) in cache) &&
            (CacheKey(other) in cache ==> e.cache[CacheKey(other)] == cache[CacheKey(other)])
  {
    if Relayed(parsed) && CacheKey(other) == CacheKey(parsed.value.question[0]) {
      CacheKeyInjective(other, parsed.value.question[0]);
    }
  }

  /** The events the serving loop sees: a poll timeout, a received datagram, or a delivered signal. */
  datatype Event =
    | Idle
    | Arrival(data: Bytes, parsed: Option<Msg>, client: Endpoint, outcome: Outcome)
    | Signal(signum: int)

  function OptSeq<T>(o: Option<T>): seq<T>
  {
    if o.Some? then [o.value] else []
  }

  /** How many events the loop takes when it starts running: up to and including the first signal. */
  function Consumed(events: seq<Event>): (n: nat)
    ensures n <= |events|
    ensures forall i :: 0 <= i < n - 1 ==> !events[i].Signal?
    ensures n < |events| ==> n > 0 && events[n - 1].Signal?
    ensures n == |events| && n > 0 && !events[n - 1].Signal? ==> forall i :: 0 <= i < |events| ==> !events[i].Signal?
  {
    if |events| == 0 then 0
    else if events[0].Signal? then 1
    else 1 + Consumed(events[1..])
  }

  datatype Trace = Trace(cache: Cache, forwarded: seq<Datagram<Bytes>>, sent: seq<Datagram<Msg>>)

  /** The cache and the traffic after a sequence of iterations. */
  function Replay(cache: Cache, events: seq<Event>): Trace
  {
    if |events| == 0 then Trace(cache, [], [])
    else
      var t := Replay(cache, events[..|events| - 1]);
      match events[|events| - 1]
      case Arrival(d, p, c, o) =>
        var e := Relay(t.cache, d, p, c, o);
        Trace(e.cache, t.forwarded + OptSeq(e.forwarded), t.sent + OptSeq(e.sent))
      case _ => t
  }

  /** Entries are overwritten but never removed. */
  lemma {:induction false} ReplayKeepsKeys(cache: Cache, events: seq<Event>)
    ensures cache.Keys <= Replay(cache, events).cache.Keys
  {
    if |events| > 0 {
      ReplayKeepsKeys(cache, events[..|events| - 1]);
    }
  }

  /** A run in which no query is for the `.local.` zone sends nothing anywhere and caches nothing. */
  lemma {:induction false} ReplayNonLocalSilent(cache: Cache, events: seq<Event>)
    requires forall i :: 0 <= i < |events| && events[i].Arrival? ==> !Relayed(events[i].parsed)
    ensures Replay(cache, events) == Trace(cache, [], [])
  {
    if |events| > 0 {
      ReplayNonLocalSilent(cache, events[..|events| - 1]);
    }
  }

  /** The relay's mutable state: the resolution cache and the shutdown flag. */
  class Proxy {
    var cache: Cache
    var shutdown: bool

    constructor ()
      ensures cache == map[] && !shutdown
    {
      cache := map[];
      shutdown := false;
    }

    /** `signal_handler`: the flag can only be set, and nothing else changes. */
    method OnSignal(signum: int)
      modifies this`shutdown
      ensures shutdown
    {
      shutdown := true;
    }

    /** The body of the serving loop for one received datagram. */
    method HandleQuery(data: Bytes, parsed: Option<Msg>, client: Endpoint, outcome: Outcome)
      returns (forwarded: Option<Datagram<Bytes>>, sent: Option<Datagram<Msg>>)
      modifies this`cache
      ensures Effect(forwarded, sent, cache) == Relay(old(cache), data, parsed, client, outcome)
    {
      forwarded, sent := None, None;
      if parsed.None? {
        return;  // the codec raised: logged by the loop's handler, nothing else
      }
      var query := parsed.value;
      if |query.question| == 0 {
        return;
      }
      var qname := query.question[0].name;
      if !EndsWith(qname, LocalSuffix) {
        return;
      }
      if outcome.ForwardFailed? {
        return;  // the multicast send raised: logged by the loop's handler, nothing else
      }
      forwarded := Some(Datagram(MdnsGroup, data));
      var fallBack := true;
      if outcome.Reply? {
        var response := outcome.msg.(id := query.id);
        if |response.answer| > 0 {
          cache := cache[CacheKey(query.question[0]) := response.answer[0]];
        }
        if outcome.delivered {
          sent := Some(Datagram(client, response));
          fallBack := false;
        }
      }
      if fallBack {
        var cached := CachedResponse(cache, query);
        if cached.Some? {
          sent := Some(Datagram(client, cached.value));
        }
      }
    }

    /**
     * The serving loop over the events that reach it: it runs while the
     * flag is clear, so it stops right after the first signal.
     */
    method Serve(events: seq<Event>) returns (handled: nat, forwarded: seq<Datagram<Bytes>>, sent: seq<Datagram<Msg>>)
      modifies this
      ensures handled == if old(shutdown) then 0 else Consumed(events)
      ensures shutdown <==> old(shutdown) || (handled > 0 && events[handled - 1].Signal?)
      ensures Trace(cache, forwarded, sent) == Replay(old(cache), events[..handled])
    {
      handled, forwarded, sent := 0, [], [];
      while !shutdown && handled < |events|
        invariant handled <= |events|
        invariant old(shutdown) ==> handled == 0
        invariant !old(shutdown) ==> handled <= Consumed(events)
        invariant shutdown <==> old(shutdown) || (handled > 0 && events[handled - 1].Signal?)
        invariant Trace(cache, forwarded, sent) == Replay(old(cache), events[..handled])
      {
        assert handled < Consumed(events);
        match events[handled] {
          case Idle =>
          case Signal(signum) =>
            OnSignal(signum);
          case Arrival(d, p, c, o) =>
            var f, s := HandleQuery(d, p, c, o);
            forwarded := forwarded + OptSeq(f);
            sent := sent + OptSeq(s);
        }
        assert events[..handled + 1][..handled] == events[..handled];
        handled := handled + 1;
      }
    }
  }

  /** What is in the PID file: an integer, or `None` when it cannot be read or is not an integer. */
  datatype PidFile = NoPidFile | PidFile(pid: Option<int>)

  datatype Startup = Proceed | RemoveStaleThenProceed | ExitAlreadyRunning(status: int)

  /**
   * The daemon's startup check of an existing PID file; `alive` is the
   * outcome of probing a pid with signal 0.
   */
  function StartupCheck(daemon: bool, file: PidFile, alive: int -> bool): (r: Startup)
    ensures r.ExitAlreadyRunning? <==> daemon && file.PidFile? && file.pid.Some? && alive(file.pid.value)
    ensures r.ExitAlreadyRunning? ==> r.status == AlreadyRunningStatus
    ensures r == RemoveStaleThenProceed <==> daemon && file.PidFile? && (file.pid.None? || !alive(file.pid.value))
    ensures r == Proceed <==> !daemon || file.NoPidFile?
  {
    if !daemon then Proceed
    else match file
      case NoPidFile => Proceed
      case PidFile(None) => RemoveStaleThenProceed
      case PidFile(Some(pid)) => if alive(pid) then ExitAlreadyRunning(AlreadyRunningStatus) else RemoveStaleThenProceed
  }
}

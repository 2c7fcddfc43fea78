/** Runs of the protocol manager with its timer: every request is answered exactly once. */
module WaitlistRuns {
  import opened Options
  import opened Waitlist

  /** `pending` has the armed timers with the key each will report, `queued` the keys of
      timeout messages on their way to the manager. The rest is what came before. */
  datatype World = World(
    registered: set<string>,
    entries: map<nat, Entry>,
    pending: map<nat, nat>,
    queued: set<nat>,
    asked: map<nat, string>,
    replies: seq<Reply>,
    usedKeys: set<nat>,
    usedTimers: set<nat>)

  datatype Event =
    | Get(request: nat, name: string, wait: bool, key: nat, timer: nat)
    | Register(name: string, hits: seq<Hit>)
    | Unregister(name: string)
    | Fire(timer: nat)
    | Elapsed(key: nat)

  function TimersOf(hits: seq<Hit>): set<nat> {
    set i | 0 <= i < |hits| :: hits[i].timer
  }

  function Resolutions(hits: seq<Hit>, name: string): (out: seq<Reply>)
    ensures |out| == |hits|
  {
    seq(|hits|, i requires 0 <= i < |hits| => Reply(hits[i].request, Resolved(name)))
  }

  ghost predicate GetStep(w: World, request: nat, name: string, wait: bool, key: nat, timer: nat, w': World) {
    && request !in w.asked
    && key !in w.usedKeys
    && timer !in w.usedTimers
    && w' ==
       var asked := w.asked[request := name];
       if name in w.registered then w.(asked := asked, replies := w.replies + [Reply(request, Resolved(name))])
       else if !wait then w.(asked := asked, replies := w.replies + [Reply(request, NoProtocol)])
       else w.(asked := asked,
               entries := w.entries[key := Entry(name, request, Some(timer))],
               pending := w.pending[timer := key],
               usedKeys := w.usedKeys + {key},
               usedTimers := w.usedTimers + {timer})
  }

  ghost predicate RegisterStep(w: World, name: string, hits: seq<Hit>, w': World) {
    if name in w.registered then w' == w
    else
      && Released(w.entries, name, hits)
      && w' == w.(registered := w.registered + {name},
                  entries := w.entries - HitKeys(hits),
                  pending := w.pending - TimersOf(hits),
                  replies := w.replies + Resolutions(hits, name))
  }

  ghost predicate ElapsedStep(w: World, key: nat, w': World) {
    && key in w.queued
    && w' == if key in w.entries
             then w.(queued := w.queued - {key},
                     entries := w.entries - {key},
                     replies := w.replies + [Reply(w.entries[key].request, NoProtocol)])
             else w.(queued := w.queued - {key})
  }

  ghost predicate Step(w: World, e: Event, w': World) {
    match e
    case Get(request, name, wait, key, timer) => GetStep(w, request, name, wait, key, timer, w')
    case Register(name, hits) => RegisterStep(w, name, hits, w')
    case Unregister(name) => w' == w.(registered := w.registered - {name})
    case Fire(timer) =>
      && timer in w.pending
      && w' == w.(pending := w.pending - {timer}, queued := w.queued + {w.pending[timer]})
    case Elapsed(key) => ElapsedStep(w, key, w')
  }

  ghost predicate IsRun(worlds: seq<World>, events: seq<Event>) {
    && |worlds| == |events| + 1
    && worlds[0] == World({}, map[], map[], {}, map[], [], {}, {})
    && forall i :: 0 <= i < |events| ==> Step(worlds[i], events[i], worlds[i + 1])
  }

  // ---------------------------------------------------------------------------
  // Timers
  // ---------------------------------------------------------------------------

  ghost predicate Armed(w: World, k: nat)
    requires k in w.entries
  {
    var timer := w.entries[k].timer;
    timer.Some? && timer.value in w.pending && w.pending[timer.value] == k
  }

  /** Whoever waits will hear: its timer is armed, or its timeout message is queued. And
      an armed timer belongs to someone who waits. */
  ghost predicate Timed(w: World) {
    && Waiting(w.entries, w.registered)
    && w.entries.Keys <= w.usedKeys
    && w.pending.Keys <= w.usedTimers
    && (forall k :: k in w.entries && w.entries[k].timer.Some? ==> w.entries[k].timer.value in w.usedTimers)
    && (forall j, k :: j in w.entries && k in w.entries && w.entries[j].timer == w.entries[k].timer ==> j == k)
    && (forall t :: t in w.pending ==> w.pending[t] in w.entries && w.entries[w.pending[t]].timer == Some(t))
    && (forall t :: t in w.pending ==> w.pending[t] !in w.queued)
    && (forall k :: k in w.entries ==> k in w.queued || Armed(w, k))
    && w.queued <= w.usedKeys
  }

  lemma GetIsTimed(w: World, request: nat, name: string, wait: bool, key: nat, timer: nat, w': World)
    requires Timed(w) && GetStep(w, request, name, wait, key, timer, w')
    ensures Timed(w')
  {
    forall k | k in w'.entries ensures k in w'.queued || Armed(w', k) {
      if k in w.entries && k !in w.queued { assert Armed(w, k); }
    }
  }

  /** The timers of those let go are no one else's. */
  lemma HitTimers(w: World, name: string, hits: seq<Hit>, k: nat)
    requires Timed(w) && Released(w.entries, name, hits) && k in w.entries && w.entries[k].timer.Some?
    ensures w.entries[k].timer.value in TimersOf(hits) <==> k in HitKeys(hits)
  {
    if k in HitKeys(hits) {
      var i :| 0 <= i < |hits| && hits[i].key == k;
      assert hits[i].timer == w.entries[k].timer.value;
    }
    if w.entries[k].timer.value in TimersOf(hits) {
      var i :| 0 <= i < |hits| && hits[i].timer == w.entries[k].timer.value;
      assert hits[i].key in HitKeys(hits);
    }
  }

  lemma RegisterIsTimed(w: World, name: string, hits: seq<Hit>, w': World)
    requires Timed(w) && RegisterStep(w, name, hits, w')
    ensures Timed(w')
  {
    if name !in w.registered {
      forall k | k in w'.entries
        ensures k in w'.queued || Armed(w', k)
        ensures w'.entries[k].protocol != name
      {
        assert k !in Waiters(w.entries, name);
        HitTimers(w, name, hits, k);
        assert k in w.queued || Armed(w, k);
      }
      forall t | t in w'.pending ensures w'.pending[t] in w'.entries {
        HitTimers(w, name, hits, w.pending[t]);
      }
    }
  }

  lemma FireIsTimed(w: World, timer: nat, w': World)
    requires Timed(w) && Step(w, Fire(timer), w')
    ensures Timed(w')
  {
    forall k | k in w'.entries ensures k in w'.queued || Armed(w', k) {
      assert k in w.queued || Armed(w, k);
    }
  }

  lemma ElapsedIsTimed(w: World, key: nat, w': World)
    requires Timed(w) && ElapsedStep(w, key, w')
    ensures Timed(w')
  {
    forall k | k in w'.entries ensures k in w'.queued || Armed(w', k) {
      assert k in w.queued || Armed(w, k);
    }
  }

  lemma StepIsTimed(w: World, e: Event, w': World)
    requires Timed(w) && Step(w, e, w')
    ensures Timed(w')
  {
    match e
    case Get(request, name, wait, key, timer) => GetIsTimed(w, request, name, wait, key, timer, w');
    case Register(name, hits) => RegisterIsTimed(w, name, hits, w');
    case Unregister(name) =>
      forall k | k in w'.entries ensures k in w'.queued || Armed(w', k) {
        assert k in w.queued || Armed(w, k);
      }
    case Fire(timer) => FireIsTimed(w, timer, w');
    case Elapsed(key) => ElapsedIsTimed(w, key, w');
  }

  // ---------------------------------------------------------------------------
  // Replies
  // ---------------------------------------------------------------------------

  function Answered(replies: seq<Reply>): set<nat> {
    set i | 0 <= i < |replies| :: replies[i].request
  }

  function Unanswered(entries: map<nat, Entry>): set<nat> {
    set k | k in entries :: entries[k].request
  }

  ghost predicate Asked(w: World, request: nat, name: string) {
    request in w.asked && w.asked[request] == name
  }

  /** Every request made has exactly one reply or waits under exactly one key, and what
      was resolved is what was asked for. */
  ghost predicate Served(w: World) {
    && w.asked.Keys == Answered(w.replies) + Unanswered(w.entries)
    && Answered(w.replies) !! Unanswered(w.entries)
    && (forall i, j :: 0 <= i < j < |w.replies| ==> w.replies[i].request != w.replies[j].request)
    && (forall j, k :: j in w.entries && k in w.entries && w.entries[j].request == w.entries[k].request ==> j == k)
    && (forall k :: k in w.entries ==> Asked(w, w.entries[k].request, w.entries[k].protocol))
    && (forall i :: 0 <= i < |w.replies| && w.replies[i].answer.Resolved? ==>
          Asked(w, w.replies[i].request, w.replies[i].answer.name))
  }

  lemma AnsweredAdded(replies: seq<Reply>, more: seq<Reply>)
    ensures Answered(replies + more) == Answered(replies) + Answered(more)
  {
    var all := replies + more;
    assert forall i :: 0 <= i < |replies| ==> all[i] == replies[i];
    assert forall i :: 0 <= i < |more| ==> all[|replies| + i] == more[i];
  }

  lemma AnsweredOne(reply: Reply)
    ensures Answered([reply]) == {reply.request}
  {
    assert [reply][0] == reply;
  }

  /** A reply to someone not answered yet. */
  lemma ReplyOnce(replies: seq<Reply>, reply: Reply)
    requires forall i, j :: 0 <= i < j < |replies| ==> replies[i].request != replies[j].request
    requires reply.request !in Answered(replies)
    ensures Answered(replies + [reply]) == Answered(replies) + {reply.request}
    ensures var all := replies + [reply];
            forall i, j :: 0 <= i < j < |all| ==> all[i].request != all[j].request
  {
    AnsweredAdded(replies, [reply]);
    AnsweredOne(reply);
    forall i | 0 <= i < |replies| ensures replies[i].request != reply.request {
      assert replies[i].request in Answered(replies);
    }
  }

  lemma UnansweredLess(entries: map<nat, Entry>, gone: set<nat>)
    requires forall j, k :: j in entries && k in entries && entries[j].request == entries[k].request ==> j == k
    ensures Unanswered(entries - gone) == Unanswered(entries) - (set k | k in entries && k in gone :: entries[k].request)
  {
    var rest := entries - gone;
    forall r | r in Unanswered(entries) && r !in (set k | k in entries && k in gone :: entries[k].request)
      ensures r in Unanswered(rest)
    {
      var k :| k in entries && entries[k].request == r;
      assert k in rest && rest[k].request == r;
    }
  }

  lemma UnansweredMore(entries: map<nat, Entry>, key: nat, entry: Entry)
    requires key !in entries
    ensures Unanswered(entries[key := entry]) == Unanswered(entries) + {entry.request}
  {
    var more := entries[key := entry];
    assert more[key].request == entry.request;
    assert forall k :: k in entries ==> more[k] == entries[k];
  }

  /** What was asked stays asked. */
  lemma SameAsked(w: World, w': World)
    requires forall r :: r in w.asked ==> r in w'.asked && w'.asked[r] == w.asked[r]
    ensures forall r, n :: Asked(w, r, n) ==> Asked(w', r, n)
  {
  }

  lemma AnsweredAtOnce(w: World, request: nat, name: string, answer: Answer, w': World)
    requires Served(w) && request !in w.asked && (answer.Resolved? ==> answer.name == name)
    requires w' == w.(asked := w.asked[request := name], replies := w.replies + [Reply(request, answer)])
    ensures Served(w')
  {
    ReplyOnce(w.replies, Reply(request, answer));
    SameAsked(w, w');
  }

  lemma WaitIsServed(w: World, request: nat, key: nat, entry: Entry, w': World)
    requires Served(w) && request !in w.asked && key !in w.entries && entry.request == request
    requires w'.entries == w.entries[key := entry] && w'.asked == w.asked[request := entry.protocol] && w'.replies == w.replies
    ensures Served(w')
  {
    UnansweredMore(w.entries, key, entry);
    forall k | k in w.entries ensures w.entries[k].request != request {
      assert Asked(w, w.entries[k].request, w.entries[k].protocol);
    }
    SameAsked(w, w');
  }

  lemma GetIsServed(w: World, request: nat, name: string, wait: bool, key: nat, timer: nat, w': World)
    requires w.entries.Keys <= w.usedKeys && Served(w) && GetStep(w, request, name, wait, key, timer, w')
    ensures Served(w')
  {
    if name in w.registered {
      AnsweredAtOnce(w, request, name, Resolved(name), w');
    } else if !wait {
      AnsweredAtOnce(w, request, name, NoProtocol, w');
    } else {
      WaitIsServed(w, request, key, Entry(name, request, Some(timer)), w');
    }
  }

  lemma TimedOutIsServed(w: World, key: nat, w': World)
    requires Served(w) && key in w.entries && w'.asked == w.asked
    requires w'.entries == w.entries - {key} && w'.replies == w.replies + [Reply(w.entries[key].request, NoProtocol)]
    ensures Served(w')
  {
    var request := w.entries[key].request;
    assert request in Unanswered(w.entries);
    ReplyOnce(w.replies, Reply(request, NoProtocol));
    UnansweredLess(w.entries, {key});
    assert (set k | k in w.entries && k in {key} :: w.entries[k].request) == {request};
    SameAsked(w, w');
  }

  lemma ElapsedIsServed(w: World, key: nat, w': World)
    requires Served(w) && ElapsedStep(w, key, w')
    ensures Served(w')
  {
    if key in w.entries {
      TimedOutIsServed(w, key, w');
    } else {
      SameAsked(w, w');
    }
  }

  /** Those let go were all waiting, and are different. */
  lemma HitRequests(w: World, name: string, hits: seq<Hit>)
    requires Served(w) && Released(w.entries, name, hits)
    ensures Answered(Resolutions(hits, name)) == (set k | k in w.entries && k in HitKeys(hits) :: w.entries[k].request)
    ensures forall i :: 0 <= i < |hits| ==> hits[i].request in Unanswered(w.entries) && Asked(w, hits[i].request, name)
    ensures forall i, j :: 0 <= i < j < |hits| ==> hits[i].request != hits[j].request
  {
    var out := Resolutions(hits, name);
    assert forall i :: 0 <= i < |hits| ==> out[i].request == hits[i].request;
    forall i | 0 <= i < |hits|
      ensures hits[i].key in HitKeys(hits)
      ensures hits[i].request in Unanswered(w.entries) && Asked(w, hits[i].request, name)
    {
      var key := hits[i].key;
      assert key in HitKeys(hits);
      assert key in Waiters(w.entries, name);
      assert w.entries[key].request == hits[i].request;
      assert Asked(w, w.entries[key].request, w.entries[key].protocol);
    }
  }

  lemma ReplyAll(w: World, name: string, hits: seq<Hit>, i: nat, j: nat)
    requires Served(w) && Released(w.entries, name, hits) && i < j < |w.replies| + |hits|
    ensures (w.replies + Resolutions(hits, name))[i].request != (w.replies + Resolutions(hits, name))[j].request
  {
    HitRequests(w, name, hits);
    var n := |w.replies|;
    if i < n <= j {
      assert w.replies[i].request in Answered(w.replies);
    }
  }

  lemma RegisterIsServed(w: World, name: string, hits: seq<Hit>, w': World)
    requires Served(w) && RegisterStep(w, name, hits, w')
    ensures Served(w')
  {
    if name !in w.registered {
      HitRequests(w, name, hits);
      AnsweredAdded(w.replies, Resolutions(hits, name));
      UnansweredLess(w.entries, HitKeys(hits));
      forall i, j | 0 <= i < j < |w'.replies| ensures w'.replies[i].request != w'.replies[j].request {
        ReplyAll(w, name, hits, i, j);
      }
      SameAsked(w, w');
    }
  }

  lemma StepIsServed(w: World, e: Event, w': World)
    requires Timed(w) && Served(w) && Step(w, e, w')
    ensures Served(w')
  {
    match e
    case Get(request, name, wait, key, timer) => GetIsServed(w, request, name, wait, key, timer, w');
    case Register(name, hits) => RegisterIsServed(w, name, hits, w');
    case Unregister(name) => SameAsked(w, w');
    case Fire(timer) => SameAsked(w, w');
    case Elapsed(key) => ElapsedIsServed(w, key, w');
  }

  /** In every run: who waits has a timer armed or a timeout queued and waits for what is
      not registered, and each request has one reply or waits once. */
  lemma {:induction false} RunServes(worlds: seq<World>, events: seq<Event>, n: nat)
    requires IsRun(worlds, events) && n < |worlds|
    ensures Timed(worlds[n]) && Served(worlds[n])
    decreases n
  {
    if n > 0 {
      RunServes(worlds, events, n - 1);
      assert Step(worlds[n - 1], events[n - 1], worlds[n]);
      StepIsTimed(worlds[n - 1], events[n - 1], worlds[n]);
      StepIsServed(worlds[n - 1], events[n - 1], worlds[n]);
    }
  }

  /** When no timer is armed and no timeout is on its way, every request made has its
      reply, and only one. */
  lemma NobodyIsForgotten(worlds: seq<World>, events: seq<Event>, n: nat)
    requires IsRun(worlds, events) && n < |worlds|
    ensures worlds[n].pending == map[] && worlds[n].queued == {} ==> worlds[n].asked.Keys == Answered(worlds[n].replies)
    ensures forall i, j :: 0 <= i < j < |worlds[n].replies| ==>
                             worlds[n].replies[i].request != worlds[n].replies[j].request
  {
    RunServes(worlds, events, n);
    var w := worlds[n];
    if w.entries != map[] {
      var k :| k in w.entries;
      assert k in w.queued || Armed(w, k);
    }
  }

  // ---------------------------------------------------------------------------
  // Answers
  // ---------------------------------------------------------------------------

  /** The answer fits: what is resolved is what was asked for and is registered, and what
      is refused is not. */
  ghost predicate Fits(w: World, reply: Reply) {
    && reply.request in w.asked
    && match reply.answer
       case Resolved(name) => name == w.asked[reply.request] && name in w.registered
       case NoProtocol => w.asked[reply.request] !in w.registered
  }

  lemma ReleaseAnswersFit(w: World, name: string, hits: seq<Hit>, w': World)
    requires Served(w) && RegisterStep(w, name, hits, w')
    ensures |w.replies| <= |w'.replies| && w'.replies[..|w.replies|] == w.replies
    ensures forall i :: |w.replies| <= i < |w'.replies| ==> Fits(w', w'.replies[i])
  {
    if name !in w.registered { HitRequests(w, name, hits); }
  }

  lemma GetAnswerFits(w: World, request: nat, name: string, wait: bool, key: nat, timer: nat, w': World)
    requires GetStep(w, request, name, wait, key, timer, w')
    ensures |w.replies| <= |w'.replies| && w'.replies[..|w.replies|] == w.replies
    ensures forall i :: |w.replies| <= i < |w'.replies| ==> Fits(w', w'.replies[i])
  {
  }

  lemma TimeoutAnswerFits(w: World, key: nat, w': World)
    requires Timed(w) && Served(w) && ElapsedStep(w, key, w')
    ensures |w.replies| <= |w'.replies| && w'.replies[..|w.replies|] == w.replies
    ensures forall i :: |w.replies| <= i < |w'.replies| ==> Fits(w', w'.replies[i])
  {
    if key in w.entries { assert Asked(w, w.entries[key].request, w.entries[key].protocol); }
  }

  /** Every answer given fits at the moment it is given, and none is taken back. */
  lemma AnswersFit(w: World, e: Event, w': World)
    requires Timed(w) && Served(w) && Step(w, e, w')
    ensures |w.replies| <= |w'.replies| && w'.replies[..|w.replies|] == w.replies
    ensures forall i :: |w.replies| <= i < |w'.replies| ==> Fits(w', w'.replies[i])
  {
    match e
    case Get(request, name, wait, key, timer) => GetAnswerFits(w, request, name, wait, key, timer, w');
    case Register(name, hits) => ReleaseAnswersFit(w, name, hits, w');
    case Unregister(name) =>
    case Fire(timer) =>
    case Elapsed(key) => TimeoutAnswerFits(w, key, w');
  }

  /** In every run each reply fitted when it was given. */
  lemma {:induction false} RepliesWereTrue(worlds: seq<World>, events: seq<Event>, n: nat, i: nat)
    requires IsRun(worlds, events) && n < |worlds| && i < |worlds[n].replies|
    ensures exists m :: 0 < m <= n && i < |worlds[m].replies| && worlds[m].replies[i] == worlds[n].replies[i]
                        && Fits(worlds[m], worlds[n].replies[i])
    decreases n
  {
    assert n > 0;
    RunServes(worlds, events, n - 1);
    assert Step(worlds[n - 1], events[n - 1], worlds[n]);
    AnswersFit(worlds[n - 1], events[n - 1], worlds[n]);
    if i < |worlds[n - 1].replies| {
      assert worlds[n].replies[..|worlds[n - 1].replies|][i] == worlds[n].replies[i];
      RepliesWereTrue(worlds, events, n - 1, i);
      var m :| 0 < m <= n - 1 && i < |worlds[m].replies| && worlds[m].replies[i] == worlds[n - 1].replies[i]
               && Fits(worlds[m], worlds[n - 1].replies[i]);
    }
  }
}

/** The volume watches: the registry of running watches (the module-level
    `jobs_dict` and `max_volume_dict`), starting a watch, the decision one
    polling tick takes, and stopping one watch or all of them. */
module VolumeWatch {
  import opened Volumes

  type ChatId = int
  type Symbol = string

  /** The scheduler a watch runs on, as an opaque token: a new scheduler per
      watch start, whose job is bound to the watch's chat and symbol. */
  datatype Handle = Handle(chat: ChatId, symbol: Symbol, serial: nat)

  /** `jobs_dict[chat][symbol]`: the watch's scheduler and its starting maximum. */
  datatype Job = Job(scheduler: Handle, maxVolume: int)

  type Jobs = map<ChatId, map<Symbol, Job>>

  /** Wall-clock time of day in microseconds since midnight (`datetime.now().time()`). */
  const MicrosPerDay: nat := 86_400_000_000
  type TimeOfDay = t: nat | t < MicrosPerDay

  function ClockTime(hour: nat, minute: nat): nat {
    (hour * 60 + minute) * 60_000_000
  }

  /** The monitoring window, 23:30 to 05:00 across midnight, both ends included:
      at most five and a half hours after 23:30 on the clock face. */
  predicate InMonitoringHours(now: TimeOfDay): (r: bool)
    ensures r <==> (now + MicrosPerDay - ClockTime(23, 30)) % MicrosPerDay <= ClockTime(5, 30)
  {
    var since := now + MicrosPerDay - ClockTime(23, 30);
    if ClockTime(23, 30) <= now then
      assert since % MicrosPerDay == now - ClockTime(23, 30);
      true
    else
      assert since % MicrosPerDay == since;
      now <= ClockTime(5, 0)
  }

  /** What one tick does, first match wins. */
  datatype Decision =
    | StopAllWatches   // outside the monitoring window
    | StopThisWatch    // volume collapsed to 30% of the maximum or less
    | RaiseMax         // a new maximum
    | KeepQuiet        // nothing to report

  /** The decision of `fetch_and_send_volume` for the last closed bar's volume
      against the remembered maximum. `last <= 0.3 * max` is written `10 * last <= 3 * max`. */
  function Decide(now: TimeOfDay, last: int, max: int): (d: Decision)
    ensures d == StopAllWatches <==> !InMonitoringHours(now)
    ensures d == StopThisWatch ==> last as real <= 0.3 * max as real
    ensures d == RaiseMax ==> max < last && 0.3 * max as real < last as real
    ensures d == KeepQuiet ==> 0.3 * max as real < last as real <= max as real
  {
    if !InMonitoringHours(now) then StopAllWatches
    else if 10 * last <= 3 * max then StopThisWatch
    else if last > max then RaiseMax
    else KeepQuiet
  }

  /** The notification a watch start sends. */
  datatype StartOutcome =
    | AlreadyWatched                      // the symbol is watched (by any chat)
    | NotFound                            // the one-hour download was empty
    | Started(maxVolume: int, scale: Scale)

  /** The notification a tick sends. */
  datatype TickOutcome =
    | NoData                              // the day download was empty
    | IndexError                          // a single bar: `iloc[-2]` fails
    | Decided(decision: Decision, volume: int)

  /** `data['Volume'].iloc[-2]`: the last closed bar of the day download. */
  function LastClosed(dayVolumes: seq<int>): int
    requires |dayVolumes| >= 2
  {
    dayVolumes[|dayVolumes| - 2]
  }

  ghost function WatchedSymbols(jobs: Jobs): set<Symbol> {
    set c, s | c in jobs && s in jobs[c] :: s
  }

  ghost function Handles(jobs: Jobs): set<Handle> {
    set c, s | c in jobs && s in jobs[c] :: jobs[c][s].scheduler
  }

  /** No symbol is watched by two chats. */
  ghost predicate SingleOwner(jobs: Jobs) {
    forall c1, c2, s :: c1 in jobs && c2 in jobs && s in jobs[c1] && s in jobs[c2] ==> c1 == c2
  }

  /** Each watch's scheduler runs the job of that watch's chat and symbol. */
  ghost predicate HandlesMatch(jobs: Jobs) {
    forall c, s :: c in jobs && s in jobs[c] ==> jobs[c][s].scheduler.chat == c && jobs[c][s].scheduler.symbol == s
  }

  /** Removing one watch removes its symbol and its scheduler and nothing else. */
  lemma RemoveWatch(jobs: Jobs, chat: ChatId, symbol: Symbol)
    requires chat in jobs && symbol in jobs[chat]
    requires SingleOwner(jobs) && HandlesMatch(jobs)
    ensures var after := jobs[chat := jobs[chat] - {symbol}];
      && WatchedSymbols(after) == WatchedSymbols(jobs) - {symbol}
      && Handles(after) == Handles(jobs) - {jobs[chat][symbol].scheduler}
      && SingleOwner(after) && HandlesMatch(after)
  {
    var after := jobs[chat := jobs[chat] - {symbol}];
    forall s | s in WatchedSymbols(jobs) - {symbol}
      ensures s in WatchedSymbols(after)
    {
      var c :| c in jobs && s in jobs[c];
      assert s in after[c];
    }
    forall h | h in Handles(jobs) - {jobs[chat][symbol].scheduler}
      ensures h in Handles(after)
    {
      var c, s :| c in jobs && s in jobs[c] && jobs[c][s].scheduler == h;
      assert s in after[c] && after[c][s].scheduler == h;
    }
  }

  /** Deleting a chat entry without watches changes no symbol and no scheduler. */
  lemma DropEmptyChat(jobs: Jobs, chat: ChatId)
    requires chat in jobs && jobs[chat] == map[]
    requires SingleOwner(jobs) && HandlesMatch(jobs)
    ensures var after := jobs - {chat};
      && WatchedSymbols(after) == WatchedSymbols(jobs)
      && Handles(after) == Handles(jobs)
      && SingleOwner(after) && HandlesMatch(after)
  {
    var after := jobs - {chat};
    forall s | s in WatchedSymbols(jobs)
      ensures s in WatchedSymbols(after)
    {
      var c :| c in jobs && s in jobs[c];
      assert c != chat && s in after[c];
    }
    forall h | h in Handles(jobs)
      ensures h in Handles(after)
    {
      var c, s :| c in jobs && s in jobs[c] && jobs[c][s].scheduler == h;
      assert c != chat && s in after[c] && after[c][s].scheduler == h;
    }
  }

  /** Adding a watch for an unwatched symbol with a new scheduler adds exactly those. */
  lemma AddWatch(jobs: Jobs, chat: ChatId, symbol: Symbol, job: Job)
    requires symbol !in WatchedSymbols(jobs) && job.scheduler.chat == chat && job.scheduler.symbol == symbol
    requires SingleOwner(jobs) && HandlesMatch(jobs)
    ensures var inner := if chat in jobs then jobs[chat] else map[];
      var after := jobs[chat := inner[symbol := job]];
      && WatchedSymbols(after) == WatchedSymbols(jobs) + {symbol}
      && job.scheduler !in Handles(jobs)
      && Handles(after) == Handles(jobs) + {job.scheduler}
      && SingleOwner(after) && HandlesMatch(after)
  {
    var inner := if chat in jobs then jobs[chat] else map[];
    var after := jobs[chat := inner[symbol := job]];
    assert symbol in after[chat];
    forall s | s in WatchedSymbols(jobs)
      ensures s in WatchedSymbols(after)
    {
      var c :| c in jobs && s in jobs[c];
      assert s in after[c];
    }
    forall h | h in Handles(jobs)
      ensures h in Handles(after)
    {
      var c, s :| c in jobs && s in jobs[c] && jobs[c][s].scheduler == h;
      assert s in after[c] && after[c][s].scheduler == h;
    }
  }

  /** The registry invariant on the four pieces of state (see `Registry.Valid`). */
  ghost predicate Consistent(jobs: Jobs, maxVolume: map<Symbol, int>, running: set<Handle>) {
    && maxVolume.Keys == WatchedSymbols(jobs)
    && SingleOwner(jobs)
    && HandlesMatch(jobs)
    && running == Handles(jobs)
  }

  /** Registering a new watch keeps the registry consistent. */
  lemma StartKeepsConsistent(jobs: Jobs, maxVolume: map<Symbol, int>, running: set<Handle>,
                             chat: ChatId, symbol: Symbol, serial: nat, m: int)
    requires Consistent(jobs, maxVolume, running) && symbol !in maxVolume
    ensures var h := Handle(chat, symbol, serial);
      var inner := if chat in jobs then jobs[chat] else map[];
      && h !in running
      && Consistent(jobs[chat := inner[symbol := Job(h, m)]], maxVolume[symbol := m], running + {h})
  {
    var h := Handle(chat, symbol, serial);
    var inner := if chat in jobs then jobs[chat] else map[];
    AddWatch(jobs, chat, symbol, Job(h, m));
  }

  /** Removing a registered watch together with its symbol's maximum keeps the registry consistent. */
  lemma StopKeepsConsistent(jobs: Jobs, maxVolume: map<Symbol, int>, running: set<Handle>,
                            chat: ChatId, symbol: Symbol)
    requires Consistent(jobs, maxVolume, running) && chat in jobs && symbol in jobs[chat]
    ensures Consistent(jobs[chat := jobs[chat] - {symbol}], maxVolume - {symbol},
                       running - {jobs[chat][symbol].scheduler})
  {
    RemoveWatch(jobs, chat, symbol);
  }

  /** Some member of a non-empty set; the order in which `stop_all_jobs` visits
      chats and symbols does not affect its final state. */
  method Pick<T>(s: set<T>) returns (x: T)
    requires s != {}
    ensures x in s
  {
    x :| x in s;
  }

  class Registry {
    /** `jobs_dict`: chat -> symbol -> job. */
    var jobs: Jobs
    /** `max_volume_dict`: symbol -> the highest volume seen since the watch started. */
    var maxVolume: map<Symbol, int>
    /** The schedulers that were started and not shut down. */
    var running: set<Handle>
    /** The next scheduler token to hand out. */
    var nextHandle: nat

    /** Every watched symbol has a maximum and vice versa, no symbol is watched
        by two chats, and the running schedulers are exactly those of the
        registered watches, each bound to its own watch (none is orphaned). */
    ghost predicate Valid()
      reads this
    {
      Consistent(jobs, maxVolume, running)
    }

    /** A watch of `symbol` is registered for `chat`. */
    ghost predicate Watching(chat: ChatId, symbol: Symbol)
      reads this
    {
      chat in jobs && symbol in jobs[chat]
    }

    /** `symbol` is watched by a chat other than `chat`. */
    ghost predicate WatchedElsewhere(chat: ChatId, symbol: Symbol)
      reads this
    {
      exists c :: c in jobs && c != chat && symbol in jobs[c]
    }

    constructor ()
      ensures Valid()
      ensures jobs == map[] && maxVolume == map[] && running == {}
    {
      jobs := map[];
      maxVolume := map[];
      running := {};
      nextHandle := 0;
    }

    /** The state effects of `start_volume_tracking(chat, symbol)` given the
        volumes of the one-hour, 5-minute download. The duplicate test is by
        symbol alone, whichever chat watches it. */
    method Start(chat: ChatId, symbol: Symbol, hourVolumes: seq<int>) returns (outcome: StartOutcome)
      requires Valid()
      modifies this
      ensures Valid()
      ensures outcome == AlreadyWatched <==> symbol in old(maxVolume)
      ensures outcome == NotFound <==> symbol !in old(maxVolume) && hourVolumes == []
      ensures !outcome.Started? ==> unchanged(this)
      ensures outcome.Started? ==>
        var m := MaxVolume(hourVolumes);
        var h := Handle(chat, symbol, old(nextHandle));
        var inner := if chat in old(jobs) then old(jobs)[chat] else map[];
        && outcome == Started(m, VolumeScale(m))
        && maxVolume == old(maxVolume)[symbol := m]
        && jobs == old(jobs)[chat := inner[symbol := Job(h, m)]]
        && h !in old(running) && running == old(running) + {h}
        && nextHandle == old(nextHandle) + 1
    {
      if symbol in maxVolume {
        return AlreadyWatched;
      }
      if hourVolumes == [] {
        return NotFound;
      }
      var m := MaxVolume(hourVolumes);
      StartKeepsConsistent(jobs, maxVolume, running, chat, symbol, nextHandle, m);
      maxVolume := maxVolume[symbol := m];
      var h := Handle(chat, symbol, nextHandle);
      nextHandle := nextHandle + 1;
      running := running + {h};
      ghost var before := jobs;
      if chat !in jobs {
        jobs := jobs[chat := map[]];
      }
      jobs := jobs[chat := jobs[chat][symbol := Job(h, m)]];
      assert jobs == before[chat := (if chat in before then before[chat] else map[])[symbol := Job(h, m)]];
      outcome := Started(m, VolumeScale(m));
    }

    /** `stop_job(chat, symbol)`: shuts down and removes `jobs[chat][symbol]` if
        present, and drops the symbol's maximum if present. The chat's entry
        stays even when it becomes empty. */
    method StopJob(chat: ChatId, symbol: Symbol)
      requires Valid()
      modifies this
      ensures old(Watching(chat, symbol)) ==>
        && jobs == old(jobs)[chat := old(jobs)[chat] - {symbol}]
        && running == old(running) - {old(jobs)[chat][symbol].scheduler}
      ensures !old(Watching(chat, symbol)) ==> jobs == old(jobs) && running == old(running)
      ensures maxVolume == old(maxVolume) - {symbol}
      ensures nextHandle == old(nextHandle)
      ensures !old(WatchedElsewhere(chat, symbol)) ==> Valid()
    {
      if chat in jobs && symbol in jobs[chat] {
        StopKeepsConsistent(jobs, maxVolume, running, chat, symbol);
        running := running - {jobs[chat][symbol].scheduler};
        jobs := jobs[chat := jobs[chat] - {symbol}];
      }
      if symbol in maxVolume {
        maxVolume := maxVolume - {symbol};
      }
    }

    /** `stop_all_jobs()`: shuts down every scheduler, deletes every watch and
        every chat entry, then clears the maxima. Safe on an empty registry. */
    method StopAll()
      requires Valid()
      modifies this
      ensures Valid()
      ensures jobs == map[] && maxVolume == map[]
      ensures running == old(running) - Handles(old(jobs)) && running == {}
      ensures nextHandle == old(nextHandle)
    {
      var chats := jobs.Keys;
      while chats != {}
        invariant chats == jobs.Keys
        invariant running == Handles(jobs) && SingleOwner(jobs) && HandlesMatch(jobs)
        invariant maxVolume == old(maxVolume) && nextHandle == old(nextHandle)
        decreases chats
      {
        var chat := Pick(chats);
        var symbols := jobs[chat].Keys;
        while symbols != {}
          invariant chat in jobs && symbols == jobs[chat].Keys && chats == jobs.Keys
          invariant running == Handles(jobs) && SingleOwner(jobs) && HandlesMatch(jobs)
          invariant maxVolume == old(maxVolume) && nextHandle == old(nextHandle)
            decreases symbols
        {
          var symbol := Pick(symbols);
          RemoveWatch(jobs, chat, symbol);
          running := running - {jobs[chat][symbol].scheduler};
          jobs := jobs[chat := jobs[chat] - {symbol}];
          symbols := symbols - {symbol};
        }
        assert jobs[chat] == map[];
        if jobs[chat] == map[] {
          DropEmptyChat(jobs, chat);
          jobs := jobs - {chat};
        }
        chats := chats - {chat};
      }
      maxVolume := map[];
    }

    /** One tick of `fetch_and_send_volume(chat, symbol)`, given the volumes of
        the day's 5-minute download and the time of day. A tick only runs
        while its watch's scheduler does, that is, while the watch is registered. */
    method Tick(chat: ChatId, symbol: Symbol, dayVolumes: seq<int>, now: TimeOfDay) returns (outcome: TickOutcome)
      requires Valid() && Watching(chat, symbol)
      modifies this
      ensures Valid() && nextHandle == old(nextHandle)
      ensures dayVolumes == [] ==> outcome == NoData && unchanged(this)
      ensures |dayVolumes| == 1 ==> outcome == IndexError && unchanged(this)
      ensures |dayVolumes| >= 2 ==>
        outcome == Decided(Decide(now, LastClosed(dayVolumes), old(maxVolume)[symbol]), LastClosed(dayVolumes))
      ensures outcome.Decided? && outcome.decision == StopAllWatches ==>
        jobs == map[] && maxVolume == map[] && running == {}
      ensures outcome.Decided? && outcome.decision == StopThisWatch ==>
        && jobs == old(jobs)[chat := old(jobs)[chat] - {symbol}]
        && maxVolume == old(maxVolume) - {symbol}
        && running == old(running) - {old(jobs)[chat][symbol].scheduler}
      ensures outcome.Decided? && outcome.decision == RaiseMax ==>
        && maxVolume == old(maxVolume)[symbol := outcome.volume]
        && jobs == old(jobs) && running == old(running)
      ensures outcome.Decided? && outcome.decision == KeepQuiet ==> unchanged(this)
      // while the watch stays, its maximum never goes down and becomes the larger of the two
      ensures Watching(chat, symbol) ==>
        && old(maxVolume)[symbol] <= maxVolume[symbol]
        && (outcome.Decided? ==> maxVolume[symbol] == if outcome.volume > old(maxVolume)[symbol] then outcome.volume else old(maxVolume)[symbol])
    {
      if dayVolumes == [] {
        return NoData;
      }
      if |dayVolumes| < 2 {
        return IndexError;
      }
      var last := LastClosed(dayVolumes);
      var max := if symbol in maxVolume then maxVolume[symbol] else 0;
      var decision := Decide(now, last, max);
      outcome := Decided(decision, last);
      match decision
      case StopAllWatches =>
        StopAll();
      case StopThisWatch =>
        StopJob(chat, symbol);
      case RaiseMax =>
        maxVolume := maxVolume[symbol := last];
      case KeepQuiet =>
    }
  }

  // ----- properties of the decision -----

  /** The watch survives a tick only inside the monitoring window and above 30%
      of its maximum; it then keeps the larger of the old maximum and the new volume. */
  lemma SurvivingTick(now: TimeOfDay, last: int, max: int)
    requires Decide(now, last, max) == RaiseMax || Decide(now, last, max) == KeepQuiet
    ensures InMonitoringHours(now) && 10 * last > 3 * max
    ensures Decide(now, last, max) == RaiseMax <==> last > max
  {
  }

  /** The integer collapse test is the source's `last <= 0.3 * max` over exact numbers. */
  lemma CollapseIsThirtyPercent(last: int, max: int)
    ensures 10 * last <= 3 * max <==> last as real <= 0.3 * max as real
  {
  }

  /** The tick examples: a collapse to 25%, a new high and a tick at noon. */
  lemma TickScenarios()
    ensures Decide(ClockTime(0, 0), 250_000, 1_000_000) == StopThisWatch
    ensures Decide(ClockTime(0, 0), 600, 500) == RaiseMax
    ensures Decide(ClockTime(12, 0), 600, 500) == StopAllWatches
    ensures InMonitoringHours(ClockTime(23, 30)) && InMonitoringHours(ClockTime(5, 0))
    ensures !InMonitoringHours(ClockTime(5, 0) + 1) && !InMonitoringHours(ClockTime(23, 30) - 1)
  {
  }
}

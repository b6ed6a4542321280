/** Runs of the composed system in which the pack has any number of cells, agreeing or not. */
module CellCounts {
  import opened Wrappers
  import opened JkBmsTypes
  import opened ManagerSpec
  import opened ManagerRuns
  import opened CoordinatorSpec
  import opened System
  import opened SystemSteps
  import opened EntityAgreement

  /** A first connection that succeeds at once, with so many cells configured. */
  function Boot(info: DeviceInfo, config: ConfigOptions, op: OperationalData): ConnectAnswers {
    ConnectAnswers(Ok((), 0), Ok(info, 0), Ok(config, 0), Ok(op, 0))
  }

  lemma BootEvents(m: Manager, info: DeviceInfo, config: ConfigOptions, op: OperationalData)
    requires !m.transport && m.events == []
    ensures var ev := OnConnect(m, Boot(info, config, op)).events;
      && |ev| >= 3 && ev[0].event == Data(Info(info)) && ev[1].event == Data(Config(config))
      && ev[2].event == Data(Operational(op))
  {
    hide PollData;
    var a := Boot(info, config, op);
    var m1 := OnOpened(m, 0);
    var m2 := PollData(m1, InfoAnswer(a.info)).0;
    PollDataEffect(m1, InfoAnswer(a.info));
    var m3 := PollData(m2, ConfigAnswer(a.config)).0;
    PollDataEffect(m2, ConfigAnswer(a.config));
    PollDataEffect(m3, OperationalAnswer(a.operational));
  }

  /** So many turns in which the coordinator reads one event. */
  function Reads(k: nat): seq<Action> {
    if k == 0 then [] else Reads(k - 1) + [ReadEvent(0)]
  }

  lemma {:induction false} ReadsRead(boot: ConnectAnswers, k: nat)
    requires k <= |Start(boot).manager.events|
    ensures Reach(boot, Reads(k)).manager == Start(boot).manager && Reach(boot, Reads(k)).read == k
  {
    hide OnConnect, HandleEvent;
    if k > 0 {
      ReadsRead(boot, k - 1);
      assert Reads(k)[..|Reads(k)| - 1] == Reads(k - 1);
    }
  }

  lemma LatestOfThree(ev: seq<Stamped>, info: DeviceInfo, config: ConfigOptions, op: OperationalData)
    requires |ev| == 3 && ev[0].event == Data(Info(info)) && ev[1].event == Data(Config(config))
    requires ev[2].event == Data(Operational(op))
    ensures LatestConfig(ev) == Some(config) && LatestOperational(ev) == Some(op)
  {
    assert ev[..2][..1] == ev[..1];
  }

  /**
   * Any configured cell count is reached, zero and seventeen included; what is announced and what is
   * published agree there exactly if it is 1 to 16.
   */
  lemma AnyCellCountIsReached(info: DeviceInfo, config: ConfigOptions, op: OperationalData)
    ensures var c := Reach(Boot(info, config, op), Reads(3)).coordinator;
      && c.fragments.configOptions == Some(config) && BuildSnapshot(c, 0).Some?
      && (Agree(config.cellCount, BuildSnapshot(c, 0).value) <==> 1 <= config.cellCount <= TOTAL_CELL_SLOTS)
  {
    hide Reach, OnConnect, Inv, Numbered, FrozenIsOutstanding, Announced, Counts, AllAnswered, ShowsReadback, Agree,
      LatestInfo, LatestConfig, LatestOperational, Aggregate, ApplyTo, Reads;
    var boot := Boot(info, config, op);
    BootEvents(NEW_MANAGER, info, config, op);
    ReadsRead(boot, 3);
    ReachKeeps(boot, Reads(3));
    var s := Reach(boot, Reads(3));
    LatestOfThree(Seen(s), info, config, op);
    CoordinatorListingsAgree(s.coordinator, 0);
  }
}

/** Concrete records and signals on which a validator of record is lost. */
module ValidityWitnesses {
  import opened Market
  import opened Position
  import opened RecoveryExit
  import opened Analyses
  import opened Opportunity
  import opened Lifecycle
  import opened Envelope
  import opened References
  import opened Results
  import opened Validity

  // ---------------------------------------------------------------- evidence captured below L1

  function RecoverySignal(id: nat, level: Level, analyses: seq<Analysis>): Signal {
    Signal(id, true, level, "ABC", 0, "recovery:ABC", 10.0, [Swing], Some(SignalZone(9.0, 10.0, 8.0)), [12.0], analyses)
  }

  /** A Swing analysis that publishes the geometry of that recovery. */
  const GEOMETRY := Analysis(
    0, "swing", "ABC", Swing, 0, Favorable, Bullish,
    Metrics(None, "recovery", None, None, None, None, None, None, None, None,
            false, false, false, false, false, false, None, "",
            Some(RecoveryMetrics("recovery:ABC", "STRUCTURE_RECOVERY", true, true, 9.5, 9.5, 9.0, 9.0, 0))))

  const ARMED_SIGNAL := RecoverySignal(0, Armed, [])

  const CONFIRMING_SIGNAL := RecoverySignal(1, L1, [GEOMETRY])

  lemma GeometryIsCaptured()
    ensures EntryRecovery(CONFIRMING_SIGNAL, EligibleAnalyses(CONFIRMING_SIGNAL, CONFIRMING_SIGNAL.analyses)).Some?
  {
    var s := CONFIRMING_SIGNAL;
    assert EligibleAnalyses(s, [GEOMETRY]) == [GEOMETRY];
    assert RecoveryEvidenceFits(s, GEOMETRY);
  }

  lemma ArmedRecordIsSound() returns (o: Record)
    ensures OpenFromSignal(ARMED_SIGNAL, 0, 0) == Some(o) && Sound(o) && !o.status.StatusClosed?
    ensures |o.checkpoints| == 1 && o.checkpoints[0].level.Armed? && Captures(o.checkpoints[0], CONFIRMING_SIGNAL)
    ensures o.references == [SignalReference(ARMED_SIGNAL)] && o.peakMaturity.Armed? && o.stop == 8.0
  {
    OpenedFromSignalIsSound(ARMED_SIGNAL, 0, 0);
    o := OpenFromSignal(ARMED_SIGNAL, 0, 0).value;
  }

  lemma ConfirmingAdvances(o: Record, n: nat) returns (r: Record)
    requires o.checkpoints != [] && o.stop == 8.0 && o.peakMaturity.Armed?
    ensures Advance(o, SignalAdvancement(CONFIRMING_SIGNAL), n) == Some(r)
    ensures r.checkpoints != [] && r.checkpoints[0] == o.checkpoints[0]
  {
    var a := SignalAdvancement(CONFIRMING_SIGNAL);
    assert ActionableTarget(CONFIRMING_SIGNAL.entry, [12.0]) == Some(12.0);
    assert AdvancedCheckpoint(o, a, n).Valid();
    r := Advance(o, a, n).value;
    AdvanceParts(o, a, n);
  }

  lemma FirstIsFrozen(o: Record)
    requires o.checkpoints != [] && o.checkpoints[0].level.Armed? && Captures(o.checkpoints[0], CONFIRMING_SIGNAL)
    ensures !Sound(CaptureEvidence(o, CONFIRMING_SIGNAL))
  {
    GeometryIsCaptured();
    var cp := CaptureEvidence(o, CONFIRMING_SIGNAL).checkpoints[0];
    assert cp.recovery.Some? && !cp.Valid();
    assert !SoundCheckpoint(cp);
  }

  /** Two recovery signals of one setup and instant, the first ARMED, the second at L1 with the geometry:
      the second is accepted, and freezes a recovery on the checkpoint of the first. */
  lemma CaptureBreaksValidator() returns (o: Record, r: Record)
    ensures OpenFromSignal(ARMED_SIGNAL, 0, 0) == Some(o) && Sound(o)
    ensures IngestSignal(o, CONFIRMING_SIGNAL, IDS_PER_STEP) == Some(r) && !Sound(r)
  {
    o := ArmedRecordIsSound();
    var advanced := ConfirmingAdvances(o, IDS_PER_STEP);
    var referenced := advanced.(references := ReplaceReference(o.references, SignalReference(CONFIRMING_SIGNAL)));
    FirstIsFrozen(referenced);
    r := CaptureEvidence(referenced, CONFIRMING_SIGNAL);
  }

  // ---------------------------------------------------------------- an observation that gains a core reference

  /** A countertrend under observation. */
  const OBSERVED := Record(
    0, "ABC", StatusArmed, Armed, Armed, 20, None, 0, 0, None, 1, None, None, 9.0, 10.0, 8.0, 10.0, 10.0, 1,
    GeriCountertrend,
    [Reference(0, GeriCountertrend, None, None, None, Some(CT0), Some(CT0), "countertrend:ABC", 0, [Swing])],
    None, [], [], [])

  const ARMED_CORE_SIGNAL := Signal(1, false, Armed, "ABC", 0, "core:ABC", 10.0, [Swing], None, [], [])

  /** An ARMED core signal adds no checkpoint to it, and a reference it may not have. */
  lemma ArmedSignalBreaksValidator() returns (r: Record)
    ensures Sound(OBSERVED)
    ensures IngestSignal(OBSERVED, ARMED_CORE_SIGNAL, 0) == Some(r) && !Sound(r)
  {
    assert OBSERVED.references[0].signalId == 0;
    ArmedSignalBreaksObservation(OBSERVED, 0, ARMED_CORE_SIGNAL);
    r := IngestSignal(OBSERVED, ARMED_CORE_SIGNAL, 0).value;
  }
}

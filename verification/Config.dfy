/** The time hierarchy: level settings, validation, and page windows. */
module Config {
  import opened Prelude
  import opened Hashing

  const NANOS_PER_SECOND: int := 1_000_000_000
  const I64_MAX: int := 0x7FFF_FFFF_FFFF_FFFF
  const U32_MAX: int := 0xFFFF_FFFF

  datatype ContentKind = ChildHashes | NetPatchesOnly | ChildHashesAndNetPatches

  datatype RetentionPolicy = KeepIndefinitely | DeleteAfterSecs(seconds: nat) | KeepNPages(count: nat)

  datatype Level = Level(
    duration: nat,   // seconds
    maxItems: nat,
    maxAge: nat,     // seconds
    kind: ContentKind,
    retention: Option<RetentionPolicy>)
  {
    function DurationNanos(): int {
      duration * NANOS_PER_SECOND
    }

    predicate CarriesHashes() {
      kind != NetPatchesOnly
    }

    predicate CarriesPatches() {
      kind != ChildHashes
    }
  }

  datatype Settings = Settings(levels: seq<Level>, retentionEnabled: bool, retentionPeriod: nat)

  /** A level that passed validation, with its numbers inside the machine types they are cast to. */
  predicate ValidLevel(l: Level) {
    && 0 < l.duration
    && l.DurationNanos() <= I64_MAX
    && 0 < l.maxItems <= U32_MAX
    && l.maxAge * NANOS_PER_SECOND <= I64_MAX
  }

  predicate ValidSettings(cfg: Settings) {
    && 1 <= |cfg.levels| <= 255
    && (forall k :: 0 <= k < |cfg.levels| ==> ValidLevel(cfg.levels[k]))
    && (forall k :: 0 < k < |cfg.levels| ==> cfg.levels[k - 1].duration < cfg.levels[k].duration)
  }

  /** `timestamp_nanos_opt` is defined on the i64 range; elsewhere the code falls back to 0. */
  function NanosOrZero(ts: Time): int {
    if -I64_MAX - 1 <= ts <= I64_MAX then ts else 0
  }

  function WindowStart(l: Level, ts: Time): Time
    requires ValidLevel(l)
  {
    TruncDiv(NanosOrZero(ts), l.DurationNanos()) * l.DurationNanos()
  }

  /** Timestamps for which window arithmetic never truncates upward nor overflows. */
  predicate InRange(ts: Time) {
    0 <= ts <= I64_MAX
  }

  lemma FloorBounds(t: int, g: int)
    requires t >= 0 && g > 0
    ensures 0 <= (t / g) * g <= t < (t / g) * g + g
    ensures (t / g) * g == t <==> t % g == 0
  {
    assert t == g * (t / g) + t % g;
    assert t / g >= 0;
  }

  lemma {:induction false} MulGap(i: int, j: int, g: int)
    requires i < j && g > 0
    ensures i * g + g <= j * g
    decreases j - i
  {
    if i + 1 < j {
      MulGap(i, j - 1, g);
    }
  }

  lemma FloorMonotone(a: int, b: int, g: int)
    requires 0 <= a <= b && g > 0
    ensures (a / g) * g <= (b / g) * g
    ensures b < (a / g) * g + g ==> b / g == a / g
  {
    FloorBounds(a, g);
    FloorBounds(b, g);
    var i, j := a / g, b / g;
    if i < j {
      MulGap(i, j, g);
    } else if j < i {
      MulGap(j, i, g);
    }
  }

  /** A window contains the timestamp it was computed for exactly when truncation did not move up. */
  lemma WindowContains(l: Level, ts: Time)
    requires ValidLevel(l) && -I64_MAX - 1 <= ts <= I64_MAX
    ensures WindowStart(l, ts) <= ts < WindowStart(l, ts) + l.DurationNanos()
       <==> ts >= 0 || (-ts) % l.DurationNanos() == 0
  {
    var g := l.DurationNanos();
    if ts >= 0 {
      FloorBounds(ts, g);
    } else {
      FloorBounds(-ts, g);
      assert (-((-ts) / g)) * g == -(((-ts) / g) * g);
    }
  }

  function Times(q: int, g: int): int {
    q * g
  }

  /** Windows start at the multiple of their length next to the timestamp, on the side of the epoch; at the epoch itself for
      timestamps that do not fit. */
  lemma WindowIsMultiple(l: Level, ts: Time)
    requires ValidLevel(l)
    ensures var start, g := WindowStart(l, ts), l.duration * 1_000_000_000;
      && (exists q: int :: start == Times(q, g))
      && (ts < -0x8000_0000_0000_0000 || ts > 0x7FFF_FFFF_FFFF_FFFF ==> start == 0)
      && (0 <= ts <= 0x7FFF_FFFF_FFFF_FFFF ==> start <= ts < start + g)
      && (-0x8000_0000_0000_0000 <= ts < 0 ==> start - g < ts <= start)
  {
    var g, n := l.DurationNanos(), NanosOrZero(ts);
    assert WindowStart(l, ts) == Times(TruncDiv(n, g), g);
    if n >= 0 {
      FloorBounds(n, g);
    } else {
      FloorBounds(-n, g);
      assert (-((-n) / g)) * g == -(((-n) / g) * g);
    }
  }

  lemma WindowBounds(l: Level, ts: Time)
    requires ValidLevel(l) && InRange(ts)
    ensures 0 <= WindowStart(l, ts) <= ts < WindowStart(l, ts) + l.DurationNanos()
  {
    FloorBounds(ts, l.DurationNanos());
  }

  lemma WindowMonotone(l: Level, a: Time, b: Time)
    requires ValidLevel(l) && InRange(a) && InRange(b) && a <= b
    ensures WindowStart(l, a) <= WindowStart(l, b)
    ensures b < WindowStart(l, a) + l.DurationNanos() ==> WindowStart(l, b) == WindowStart(l, a)
  {
    FloorMonotone(a, b, l.DurationNanos());
  }
}

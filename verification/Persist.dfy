/** The on-disk snapshot: its byte layout, and the write-temp, sync, rename, sync-directory
    sequence that replaces it. */
module Persist {
  import opened Proposals
  import opened Bytes

  const MAGIC: seq<Byte> := [0x51, 0x53, 0x44, 0x31]
  const FORMAT_VERSION: nat := 1
  const HEADER_LEN: nat := 6

  /** The payload codec, which belongs to a library. */
  datatype Codec<!S> = Codec(serialize: S -> seq<Byte>, deserialize: seq<Byte> -> Option<S>)

  ghost predicate RoundTrips<S(!new)>(c: Codec<S>) {
    forall s :: c.deserialize(c.serialize(s)) == Some(s)
  }

  datatype LoadError = TooShort | BadMagic | BadVersion(found: nat) | BadPayload

  datatype Result<T> = Ok(value: T) | Err(error: LoadError)

  // ------------------------------------------------------------------------ the layout

  function Encode<S>(c: Codec<S>, s: S): seq<Byte> {
    MAGIC + LittleEndian(FORMAT_VERSION, 2) + c.serialize(s)
  }

  function Decode<S>(c: Codec<S>, bytes: seq<Byte>): Result<S> {
    if |bytes| < HEADER_LEN then Err(TooShort)
    else if bytes[..|MAGIC|] != MAGIC then Err(BadMagic)
    else
      var version := FromLittleEndian(bytes[|MAGIC|..HEADER_LEN]);
      if version != FORMAT_VERSION then Err(BadVersion(version))
      else
        match c.deserialize(bytes[HEADER_LEN..])
        case Some(s) => Ok(s)
        case None => Err(BadPayload)
  }

  /** Decoding accepts exactly the header it writes followed by a payload the codec reads. */
  lemma {:induction false} DecodeAccepts<S>(c: Codec<S>, bytes: seq<Byte>, s: S)
    ensures Decode(c, bytes) == Ok(s) <==>
            exists payload :: bytes == MAGIC + LittleEndian(FORMAT_VERSION, 2) + payload && c.deserialize(payload) == Some(s)
  {
    var header := MAGIC + LittleEndian(FORMAT_VERSION, 2);
    assert FORMAT_VERSION < PowerOf256(2);
    if Decode(c, bytes) == Ok(s) {
      LittleEndianInverts(FORMAT_VERSION, bytes[|MAGIC|..HEADER_LEN]);
      assert bytes == bytes[..|MAGIC|] + bytes[|MAGIC|..HEADER_LEN] + bytes[HEADER_LEN..];
    }
    if payload :| bytes == header + payload && c.deserialize(payload) == Some(s) {
      assert bytes[..|MAGIC|] == MAGIC && bytes[|MAGIC|..HEADER_LEN] == LittleEndian(FORMAT_VERSION, 2);
      assert bytes[HEADER_LEN..] == payload;
      LittleEndianInverts(FORMAT_VERSION, bytes[|MAGIC|..HEADER_LEN]);
    }
  }

  /** A snapshot begins with the four magic bytes and the version, low byte first. */
  lemma {:induction false} HeaderBytes<S>(c: Codec<S>, s: S)
    ensures Encode(c, s) == [0x51, 0x53, 0x44, 0x31, 1, 0] + c.serialize(s)
  {
    ByteAt(1, 2, 0);
    ByteAt(1, 2, 1);
    assert LittleEndian(1, 2) == [1, 0];
  }

  lemma {:induction false} TwoBytes(b: seq<Byte>)
    requires |b| == 2
    ensures FromLittleEndian(b) == b[0] as int + 256 * (b[1] as int)
  {
    assert b[1..] == [b[1]];
    assert FromLittleEndian([b[1]]) == b[1] + 256 * FromLittleEndian([b[1]][1..]);
  }

  /** Each way a snapshot can be refused, and exactly when: the first of its checks that
      fails is the one reported. */
  lemma {:induction false} DecodeRejects<S>(c: Codec<S>, bytes: seq<Byte>, found: nat)
    ensures Decode(c, bytes) == Err(TooShort) <==> |bytes| < 6
    ensures Decode(c, bytes) == Err(BadMagic) <==> |bytes| >= 6 && bytes[..4] != [0x51, 0x53, 0x44, 0x31]
    ensures Decode(c, bytes) == Err(BadVersion(found)) <==>
            && |bytes| >= 6 && bytes[..4] == [0x51, 0x53, 0x44, 0x31]
            && found == bytes[4] as int + 256 * (bytes[5] as int) && found != 1
    ensures Decode(c, bytes) == Err(BadPayload) <==>
            && |bytes| >= 6 && bytes[..6] == [0x51, 0x53, 0x44, 0x31, 1, 0]
            && c.deserialize(bytes[6..]).None?
  {
    if |bytes| >= 6 {
      var version := bytes[4..6];
      assert version[0] == bytes[4] && version[1] == bytes[5];
      TwoBytes(version);
      assert bytes[..6] == bytes[..4] + version;
    }
  }

  /** Round trip: decoding undoes encoding, given a payload codec that round-trips. */
  lemma {:induction false} DecodeEncode<S(!new)>(c: Codec<S>, s: S)
    requires RoundTrips(c)
    ensures Decode(c, Encode(c, s)) == Ok(s)
  {
    DecodeAccepts(c, Encode(c, s), s);
    assert Encode(c, s) == MAGIC + LittleEndian(FORMAT_VERSION, 2) + c.serialize(s);
  }

  // --------------------------------------------------------------------------- the files

  /** The two files of one replica: the snapshot, and the file a new one is staged in. */
  datatype Files = Files(path: Option<seq<Byte>>, tmp: Option<seq<Byte>>)

  /** How far a write gets before a fault or a crash ends it. */
  datatype Stop =
    | Torn(afterBytes: nat)
    | BeforeRename
    | BeforeDirSync
    | Finished

  function Attempt(f: Files, bytes: seq<Byte>, stop: Stop): Files {
    match stop
    case Torn(k) => f.(tmp := Some(bytes[..if k <= |bytes| then k else |bytes|]))
    case BeforeRename => f.(tmp := Some(bytes))
    case _ => Files(Some(bytes), None)
  }

  /** Nothing but a rename touches the snapshot, and it installs the bytes whole; short of it
      the staging file is left holding as much as was written, never an earlier write's. */
  lemma {:induction false} AttemptLeaves(f: Files, bytes: seq<Byte>, stop: Stop)
    ensures var f' := Attempt(f, bytes, stop);
            && f'.path == (if stop.BeforeDirSync? || stop.Finished? then Some(bytes) else f.path)
            && (stop.BeforeDirSync? || stop.Finished? <==> f'.tmp.None?)
            && (stop.BeforeRename? ==> f'.tmp == Some(bytes))
            && (stop.Torn? ==> f'.tmp.value <= bytes)
            && (stop.Torn? && stop.afterBytes <= |bytes| ==> |f'.tmp.value| == stop.afterBytes)
            && (stop.Torn? && stop.afterBytes > |bytes| ==> f'.tmp.value == bytes)
  {
  }

  function LoadFrom<S>(c: Codec<S>, f: Files): Result<Option<S>> {
    match f.path
    case None => Ok(None)
    case Some(bytes) =>
      match Decode(c, bytes)
      case Ok(s) => Ok(Some(s))
      case Err(e) => Err(e)
  }

  /** The files after a series of writes, each ended where its `Stop` says. */
  function AfterAll<S>(c: Codec<S>, f: Files, saves: seq<(S, Stop)>): Files {
    if saves == [] then f
    else
      var last := saves[|saves| - 1];
      Attempt(AfterAll(c, f, saves[..|saves| - 1]), Encode(c, last.0), last.1)
  }

  predicate Renamed(stop: Stop) {
    stop.BeforeDirSync? || stop.Finished?
  }

  /** `s` was the last of `saves` whose rename took effect; nothing if none did. */
  ghost predicate LatestRenamed<S(!new)>(saves: seq<(S, Stop)>, latest: Option<S>) {
    match latest
    case None => forall k | 0 <= k < |saves| :: !Renamed(saves[k].1)
    case Some(s) =>
      exists k :: 0 <= k < |saves| && Renamed(saves[k].1) && saves[k].0 == s
                  && forall j | k < j < |saves| :: !Renamed(saves[j].1)
  }

  /** Snapshot atomicity: however the writes of a fresh replica were interrupted, loading
      yields exactly the latest snapshot that was renamed into place; never torn bytes, never
      ones left in the staging file. */
  lemma {:induction false} SnapshotAtomicity<S(!new)>(c: Codec<S>, tmp: Option<seq<Byte>>, saves: seq<(S, Stop)>)
    requires RoundTrips(c)
    ensures exists latest :: LatestRenamed(saves, latest)
                             && LoadFrom(c, AfterAll(c, Files(None, tmp), saves)) == Ok(latest)
  {
    var start := Files(None, tmp);
    if saves == [] {
      assert LatestRenamed(saves, None);
    } else {
      var n := |saves| - 1;
      SnapshotAtomicity(c, tmp, saves[..n]);
      var before := AfterAll(c, start, saves[..n]);
      var latest :| LatestRenamed(saves[..n], latest) && LoadFrom(c, before) == Ok(latest);
      if Renamed(saves[n].1) {
        DecodeEncode(c, saves[n].0);
        assert LatestRenamed(saves, Some(saves[n].0));
      } else {
        assert AfterAll(c, start, saves).path == before.path;
        LatestStays(saves, latest);
      }
    }
  }

  lemma {:induction false} LatestStays<S(!new)>(saves: seq<(S, Stop)>, latest: Option<S>)
    requires saves != [] && !Renamed(saves[|saves| - 1].1) && LatestRenamed(saves[..|saves| - 1], latest)
    ensures LatestRenamed(saves, latest)
  {
    var before := saves[..|saves| - 1];
    if latest.Some? {
      var k :| 0 <= k < |before| && Renamed(before[k].1) && before[k].0 == latest.value
               && forall j | k < j < |before| :: !Renamed(before[j].1);
      assert saves[k] == before[k];
      forall j | k < j < |saves| ensures !Renamed(saves[j].1) {
        if j < |before| { assert saves[j] == before[j]; }
      }
    } else {
      forall j | 0 <= j < |saves| ensures !Renamed(saves[j].1) {
        if j < |before| { assert saves[j] == before[j]; }
      }
    }
  }

  // --------------------------------------------------------------------------- the store

  /** An injected failure: it strikes at `point`, on the first write past `skip`, once. */
  datatype Fault = Fault(point: Stop, skip: nat)

  datatype StoreState = StoreState(files: Files, saveCount: nat, seen: nat, fired: bool)

  function StopOf(fault: Option<Fault>, st: StoreState): Stop {
    if fault.Some? && st.seen >= fault.value.skip && !st.fired then fault.value.point else Finished
  }

  function Written(fault: Option<Fault>, st: StoreState, bytes: seq<Byte>): StoreState {
    var stop := StopOf(fault, st);
    StoreState(Attempt(st.files, bytes, stop),
               if stop.Finished? then st.saveCount + 1 else st.saveCount,
               if fault.Some? then st.seen + 1 else st.seen,
               st.fired || !stop.Finished?)
  }

  class Store<S> {
    const codec: Codec<S>
    const fault: Option<Fault>
    var path: Option<seq<Byte>>
    var tmp: Option<seq<Byte>>
    var saveCount: nat
    var seen: nat
    var fired: bool

    function Snapshot(): StoreState
      reads this
    {
      StoreState(Files(path, tmp), saveCount, seen, fired)
    }

    /** Open the store over whatever files an earlier process left. */
    constructor (codec: Codec<S>, fault: Option<Fault>, files: Files)
      requires fault.Some? ==> !fault.value.point.Finished?
      ensures this.codec == codec && this.fault == fault && Snapshot() == StoreState(files, 0, 0, false)
    {
      this.codec, this.fault := codec, fault;
      path, tmp := files.path, files.tmp;
      saveCount, seen, fired := 0, 0, false;
    }

    method WriteBytesBlocking(bytes: seq<Byte>) returns (ok: bool)
      requires fault.Some? ==> !fault.value.point.Finished?
      modifies this
      ensures Snapshot() == Written(fault, old(Snapshot()), bytes)
      ensures ok <==> StopOf(fault, old(Snapshot())).Finished?
    {
      var armed: Option<Stop> := None;
      if fault.Some? {
        var nth := seen;
        seen := seen + 1;
        if nth >= fault.value.skip && !fired { armed := Some(fault.value.point); }
      }
      tmp := Some([]);
      if armed.Some? && armed.value.Torn? {
        var prefix := if armed.value.afterBytes <= |bytes| then armed.value.afterBytes else |bytes|;
        tmp := Some(bytes[..prefix]);
        fired := true;
        return false;
      }
      tmp := Some(bytes);
      if armed == Some(BeforeRename) {
        fired := true;
        return false;
      }
      path, tmp := tmp, None;
      if armed == Some(BeforeDirSync) {
        fired := true;
        return false;
      }
      saveCount := saveCount + 1;
      ok := true;
    }

    method Save(s: S) returns (ok: bool)
      requires fault.Some? ==> !fault.value.point.Finished?
      modifies this
      ensures Snapshot() == Written(fault, old(Snapshot()), Encode(codec, s))
      ensures ok <==> StopOf(fault, old(Snapshot())).Finished?
    {
      ok := WriteBytesBlocking(Encode(codec, s));
    }

    method Load() returns (loaded: Result<Option<S>>)
      ensures loaded == LoadFrom(codec, Snapshot().files)
    {
      if path.None? { return Ok(None); }
      var decoded := Decode(codec, path.value);
      match decoded {
        case Ok(s) => loaded := Ok(Some(s));
        case Err(e) => loaded := Err(e);
      }
    }
  }

  function WrittenAll<S>(c: Codec<S>, fault: Option<Fault>, st: StoreState, saves: seq<S>): StoreState {
    if saves == [] then st
    else Written(fault, WrittenAll(c, fault, st, saves[..|saves| - 1]), Encode(c, saves[|saves| - 1]))
  }

  /** Which write the fault strikes. */
  function StopAt(fault: Option<Fault>, k: nat): Stop {
    if fault.Some? && k == fault.value.skip then fault.value.point else Finished
  }

  /** The fault strikes write number `skip` and no other, and the counters tell: every other
      write is counted, and the files are those of writes ended exactly there. */
  lemma {:induction false} FaultStrikesOnce<S>(c: Codec<S>, fault: Option<Fault>, files: Files, saves: seq<S>)
    requires fault.Some? ==> !fault.value.point.Finished?
    ensures var st := WrittenAll(c, fault, StoreState(files, 0, 0, false), saves);
            && st.fired == (fault.Some? && |saves| > fault.value.skip)
            && st.saveCount == |saves| - (if st.fired then 1 else 0)
            && st.seen == (if fault.Some? then |saves| else 0)
            && StopOf(fault, st) == StopAt(fault, |saves|)
            && st.files == AfterAll(c, files, Stops(fault, saves))
  {
    if saves == [] {
    } else {
      var n := |saves| - 1;
      FaultStrikesOnce(c, fault, files, saves[..n]);
      assert Stops(fault, saves)[..n] == Stops(fault, saves[..n]);
    }
  }

  function Stops<S>(fault: Option<Fault>, saves: seq<S>): seq<(S, Stop)> {
    seq(|saves|, k requires 0 <= k < |saves| => (saves[k], StopAt(fault, k)))
  }
}

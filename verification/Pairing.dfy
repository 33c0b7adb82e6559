/**
  The single-slot pairing of pull clients. The record lives in memory and, throttled, in a small
  file. One clock stands for both the wall clock and the monotonic clock of the program.
 */
module Pairing {
  import opened Bytes
  import opened Text

  const THROTTLE: real := 2.0

  datatype Record = Record(
    clientId: string, hostname: Option<string>, pairedAt: real, lastSeen: real, phase: string,
    fileId: Option<string>, bytesDone: Option<nat>, bytesTotal: Option<nat>,
    progress: Option<real>, rate: Option<real>,
    message: Option<string>, queueRemaining: Option<nat>, filesPulled: Option<nat>)

  datatype DiskRecord = Missing | Unreadable | Saved(record: Record)

  /** What `_load` makes of the file. */
  function Loaded(d: DiskRecord): Option<Record>
  {
    if d.Saved? then Some(d.record) else None
  }

  datatype Refusal = NobodyPaired | HeaderRequired | PairedToOther

  datatype PairReply = Paired | Conflict | IdRequired

  /** The two records agree on everything but the time of the last contact. */
  ghost predicate SameButSeen(a: Option<Record>, b: Option<Record>)
  {
    match (a, b)
    case (Some(x), Some(y)) => x.(lastSeen := y.lastSeen) == y
    case (None, None) => true
    case _ => false
  }

  function StatusRecord(r: Record, now: real, phase: string, fileId: Option<string>,
                        bytesDone: Option<nat>, bytesTotal: Option<nat>, progress: Option<real>, rate: Option<real>,
                        message: Option<string>, queueRemaining: Option<nat>, filesPulled: Option<nat>): Record
  {
    Record(r.clientId, r.hostname, r.pairedAt, now, phase, fileId, bytesDone, bytesTotal, progress, rate,
           if message.Some? then message else r.message,
           if queueRemaining.Some? then queueRemaining else r.queueRemaining,
           if filesPulled.Some? then filesPulled else r.filesPulled)
  }

  predicate SameClient(a: Record, b: Record)
  {
    a.clientId == b.clientId && a.hostname == b.hostname && a.pairedAt == b.pairedAt
  }

  /** No transfer is under way. */
  predicate AtRest(r: Record)
  {
    && r.phase == "idle" && r.fileId == None && r.bytesDone == None && r.bytesTotal == None
    && r.progress == None && r.rate == None && r.queueRemaining == None
  }

  class PairingService {
    var data: Option<Record>
    var disk: DiskRecord
    var dirtyDisk: bool
    var lastPersist: real
    ghost var clock: real

    /**
      The file holds the record in memory, except that its time of last contact may lag by less than
      the throttle interval, and only while the dirty flag is set.
     */
    ghost predicate Valid()
      reads this
    {
      && THROTTLE <= clock && lastPersist <= clock
      && SameButSeen(Loaded(disk), data)
      && (!dirtyDisk ==> Loaded(disk) == data)
      && lastPersist >= 0.0 && (data.Some? && lastPersist > 0.0 ==> disk.record.lastSeen == lastPersist)
      && (dirtyDisk && data.Some? ==>
            lastPersist > 0.0 && lastPersist <= data.value.lastSeen < lastPersist + THROTTLE)
    }

    constructor (disk: DiskRecord, now: real)
      requires THROTTLE <= now
      ensures Valid() && clock == now && data == Loaded(disk) && this.disk == disk
    {
      this.disk := disk;
      data := Loaded(disk);
      dirtyDisk := false;
      lastPersist := 0.0;
      clock := now;
    }

    method Save(force: bool, now: real)
      requires clock <= now
      modifies this`disk, this`dirtyDisk, this`lastPersist, this`clock
      ensures clock == now
      ensures if !force && now - old(lastPersist) < THROTTLE
              then dirtyDisk && disk == old(disk) && lastPersist == old(lastPersist)
              else !dirtyDisk && Loaded(disk) == data && lastPersist == now
    {
      clock := now;
      if !force && now - lastPersist < THROTTLE {
        dirtyDisk := true;
        return;
      }
      disk := if data.Some? then Saved(data.value) else Missing;
      lastPersist := now;
      dirtyDisk := false;
    }

    /** Claims the slot, unless another client holds it and `override` is not set. */
    method Pair(clientId: string, hostname: string, override: bool, now: real) returns (r: PairReply)
      requires Valid() && clock <= now
      modifies this
      ensures Valid()
      ensures r == IdRequired <==> Strip(clientId) == ""
      ensures r == Conflict <==>
                Strip(clientId) != "" && !override && old(data).Some? && old(data).value.clientId != ""
                && old(data).value.clientId != Strip(clientId)
      ensures r == Paired ==>
                && data.Some? && Loaded(disk) == data
                && data.value.clientId == Strip(clientId) && data.value.lastSeen == now
                && data.value.hostname == (if Strip(hostname) == "" then None else Some(Strip(hostname)))
                && AtRest(data.value)
                && (old(data).Some? && old(data).value.clientId == Strip(clientId) ==>
                      data.value.pairedAt == old(data).value.pairedAt
                      && data.value.filesPulled == old(data).value.filesPulled
                      && data.value.message == Some("reconnected"))
                && (old(data).None? || old(data).value.clientId != Strip(clientId) ==>
                      data.value.pairedAt == now && data.value.filesPulled == Some(0)
                      && data.value.message == Some("paired"))
      ensures r != Paired ==> data == old(data) && disk == old(disk)
    {
      var id := Strip(clientId);
      if id == "" {
        return IdRequired;
      }
      var host := Strip(hostname);
      if data.Some? && data.value.clientId != "" && data.value.clientId != id && !override {
        return Conflict;
      }
      var same := data.Some? && data.value.clientId == id;
      data := Some(Record(id, if host == "" then None else Some(host),
                          if same then data.value.pairedAt else now, now, "idle",
                          None, None, None, None, None,
                          Some(if same then "reconnected" else "paired"), None,
                          if same then data.value.filesPulled else Some(0)));
      Save(true, now);
      return Paired;
    }

    method Clear(now: real)
      requires Valid() && clock <= now
      modifies this
      ensures Valid() && data == None && disk == Missing
    {
      data := None;
      disk := Missing;
      dirtyDisk := false;
      clock := now;
    }

    /** Only the paired client passes. */
    method RequireClient(clientId: string) returns (refusal: Option<Refusal>)
      ensures refusal == None <==>
                data.Some? && data.value.clientId != "" && Strip(clientId) == data.value.clientId
      ensures refusal == Some(NobodyPaired) <==> data.None? || data.value.clientId == ""
      ensures refusal == Some(HeaderRequired) <==> data.Some? && data.value.clientId != "" && Strip(clientId) == ""
    {
      var id := Strip(clientId);
      if data.None? || data.value.clientId == "" {
        return Some(NobodyPaired);
      }
      if id == "" {
        return Some(HeaderRequired);
      }
      if id != data.value.clientId {
        return Some(PairedToOther);
      }
      return None;
    }

    /** A heartbeat of the paired client; the file is rewritten at most every two seconds. */
    method Touch(clientId: string, now: real)
      requires Valid() && clock <= now
      modifies this
      ensures Valid()
      ensures SameButSeen(data, old(data))
      ensures old(data).Some? && old(data).value.clientId == clientId ==> data.value.lastSeen == now
      ensures !(old(data).Some? && old(data).value.clientId == clientId) ==> data == old(data) && disk == old(disk)
    {
      if data.None? || data.value.clientId != clientId {
        return;
      }
      data := Some(data.value.(lastSeen := now));
      Save(false, now);
    }

    method UpdateStatus(clientId: string, now: real, phase: string, fileId: Option<string>,
                        bytesDone: Option<nat>, bytesTotal: Option<nat>, progress: Option<real>, rate: Option<real>,
                        message: Option<string>, queueRemaining: Option<nat>, filesPulled: Option<nat>)
      returns (accepted: bool)
      requires Valid() && clock <= now
      modifies this
      ensures Valid()
      ensures accepted <==> old(data).Some? && old(data).value.clientId == clientId
      ensures accepted ==>
                && data.Some? && Loaded(disk) == data && SameClient(data.value, old(data).value)
                && data.value.lastSeen == now && data.value.phase == phase && data.value.fileId == fileId
                && data.value.bytesDone == bytesDone && data.value.bytesTotal == bytesTotal
                && data.value.progress == progress && data.value.rate == rate
                && data.value.message == (if message == None then old(data).value.message else message)
                && data.value.queueRemaining == (if queueRemaining == None then old(data).value.queueRemaining
                                                 else queueRemaining)
                && data.value.filesPulled == (if filesPulled == None then old(data).value.filesPulled else filesPulled)
      ensures !accepted ==> data == old(data) && disk == old(disk)
    {
      if data.None? || data.value.clientId != clientId {
        return false;
      }
      data := Some(StatusRecord(data.value, now, phase, fileId, bytesDone, bytesTotal,
                                progress, rate, message, queueRemaining, filesPulled));
      Save(true, now);
      return true;
    }

    /** How far the file may lag: a reload in any reachable state finds the same client, at most 2 s stale. */
    lemma ReloadLosesLittle()
      requires Valid()
      ensures SameButSeen(Loaded(disk), data)
      ensures data.Some? ==> 0.0 <= data.value.lastSeen - disk.record.lastSeen < 2.0
      ensures !dirtyDisk ==> Loaded(disk) == data
    {
    }
  }
}

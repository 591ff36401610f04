/**
 * Deferred reconciliation (`internal/service/sync_service.go`): an in-memory
 * log of at most 100 entries, most recent first, and the pass that retries
 * every invoice left `PENDIENTE_ENVIO` by an emission that found the SRI
 * offline. The pass runs the records one after the other (the source runs up
 * to three at a time); a rejection without messages makes the source index an
 * empty slice and panic, which the model reports as a crash that ends the pass.
 */
module Sync {
  import opened Wrappers
  import opened Text
  import opened Dates
  import opened SoapClient
  import opened Records
  import opened InvoiceService

  datatype SyncLog = SyncLog(id: string, timestamp: string, action: string, status: string, detail: string, request: string, response: string)

  /** What a log entry says; the clock adds its id and time. */
  datatype Note = Note(action: string, status: string, detail: string, request: string, response: string)

  /** A clock reading: `UnixNano` for the id, the wall time for the "15:04:05" stamp. */
  datatype Stamp = Stamp(nanos: int, at: DateTime)

  function Stamped(s: Stamp, n: Note): SyncLog
  {
    SyncLog(IntToString(s.nanos), FormatClock(s.at), n.action, n.status, n.detail, n.request, n.response)
  }

  const MaxLogs: nat := 100

  function Min(a: int, b: int): int
  {
    if a <= b then a else b
  }

  // ---------------------------------------------------------------- the log buffer

  /** The list after `AddLog`: the entry in front, then the list cut to 100 entries. */
  function Pushed(logs: seq<SyncLog>, l: SyncLog): seq<SyncLog>
  {
    var all := [l] + logs;
    if |all| > MaxLogs then all[..MaxLogs] else all
  }

  /** The new entry is first, the length grows by one up to 100, and the rest is a prefix of the old list. */
  lemma PushedShape(logs: seq<SyncLog>, l: SyncLog)
    ensures var r := Pushed(logs, l);
      && |r| == Min(|logs| + 1, MaxLogs)
      && r[0] == l
      && r[1..] == logs[..|r| - 1]
      && (|logs| < MaxLogs ==> r[1..] == logs)
  {
    var all := [l] + logs;
    assert all[1..] == logs;
    if |all| > MaxLogs {
      assert all[..MaxLogs][1..] == logs[..MaxLogs - 1];
    }
  }

  /** Several entries, in the order they are added, under one clock reading. */
  function PushedAll(logs: seq<SyncLog>, s: Stamp, notes: seq<Note>): (r: seq<SyncLog>)
    ensures notes != [] ==> r != []
    decreases |notes|
  {
    if notes == [] then logs else PushedAll(Pushed(logs, Stamped(s, notes[0])), s, notes[1..])
  }

  lemma {:induction false} PushedAllAppend(logs: seq<SyncLog>, s: Stamp, a: seq<Note>, b: seq<Note>)
    ensures PushedAll(logs, s, a + b) == PushedAll(PushedAll(logs, s, a), s, b)
    decreases |a|
  {
    if a != [] {
      assert (a + b)[1..] == a[1..] + b;
      PushedAllAppend(Pushed(logs, Stamped(s, a[0])), s, a[1..], b);
    } else {
      assert a + b == b;
    }
  }

  /** Starting from at most 100 entries, the buffer grows by one entry per note up to 100. */
  lemma {:induction false} PushedAllLength(logs: seq<SyncLog>, s: Stamp, notes: seq<Note>)
    requires |logs| <= MaxLogs
    ensures |PushedAll(logs, s, notes)| == Min(|logs| + |notes|, MaxLogs)
    decreases |notes|
  {
    if notes != [] {
      var next := Pushed(logs, Stamped(s, notes[0]));
      assert |next| == Min(|logs| + 1, MaxLogs);
      PushedAllLength(next, s, notes[1..]);
    }
  }

  /** The last entry added comes first. */
  lemma {:induction false} PushedAllFront(logs: seq<SyncLog>, s: Stamp, notes: seq<Note>)
    requires notes != []
    ensures PushedAll(logs, s, notes)[0] == Stamped(s, notes[|notes| - 1])
    decreases |notes|
  {
    var next := Pushed(logs, Stamped(s, notes[0]));
    if |notes| > 1 {
      assert notes[1..][|notes[1..]| - 1] == notes[|notes| - 1];
      PushedAllFront(next, s, notes[1..]);
    } else {
      assert notes[1..] == [];
    }
  }

  // ---------------------------------------------------------------- one record

  const EnvioAction: string := "Envío SRI"
  const AuthAction: string := "Autorización SRI"
  const BatchAction: string := "Proceso Batch"
  const ConnectivityAction: string := "Conectividad"
  const SuccessStatus: string := "Success"
  const ErrorStatus: string := "Error"
  const InfoStatus: string := "Info"
  const WarningStatus: string := "Warning"
  const NetworkFailDetail: string := "Fallo de red al enviar"
  const AuthQueryFailDetail: string := "Error consultando autorización"
  const ReturnedDetail: string := "Factura Devuelta"
  const UnknownAuthState: string := "Desconocido"
  const RejectionPrefix: string := "Rechazo diferido: "
  const ReturnedMessage: string := "Devuelta en sincronización diferida."

  /** The SRI client, the connectivity probe and the `%+v` printer of an authorization answer. */
  datatype SyncEnv = SyncEnv(
    connected: bool,
    enviar: Bytes -> SriResult<RespuestaRecepcion>,
    autorizar: string -> SriResult<RespuestaAutorizacion>,
    dump: RespuestaAutorizacion -> string)

  /** What retrying one record does: the entries it logs, the record it saves (if any), and whether it panicked. */
  datatype Processed = Processed(notes: seq<Note>, saved: Option<Factura>, crashed: bool)

  /**
   * The authorization loop: the first `AUTORIZADO` entry sets the state and
   * stops; every other entry sets its state and "Rechazo diferido: " plus its
   * first message, and an entry without messages panics (`None`).
   */
  function ScanDeferred(auths: seq<Autorizacion>, f: Factura): Option<Factura>
  {
    if auths == [] then Some(f)
    else if auths[0].estado == Autorizado then Some(f.(estadoSRI := Autorizado))
    else if auths[0].mensajes == [] then None
    else ScanDeferred(auths[1..], f.(estadoSRI := auths[0].estado, mensajeError := RejectionPrefix + auths[0].mensajes[0].mensaje))
  }

  function ReceivedNote(f: Factura, estado: string): Note
  {
    Note(EnvioAction, SuccessStatus, "Factura " + f.secuencial + " enviada", "Factura: " + f.secuencial, "Estado: " + estado)
  }

  function AuthStateNote(f: Factura, a: RespuestaAutorizacion, env: SyncEnv): Note
  {
    var status := if |a.autorizaciones| > 0 then a.autorizaciones[0].estado else UnknownAuthState;
    Note(AuthAction, InfoStatus, "Estado Auth: " + status, f.claveAcceso, env.dump(a))
  }

  /** `processSingleInvoice` as a specification. */
  function ProcessInvoice(f: Factura, env: SyncEnv): Processed
  {
    var reqLog := "Factura: " + f.secuencial;
    var resp := env.enviar(f.xmlFirmado);
    if !resp.Success? then
      Processed([Note(EnvioAction, ErrorStatus, NetworkFailDetail, reqLog, resp.msg)], None, false)
    else if resp.value.estado == Recibida then
      var received := f.(estadoSRI := Recibida, mensajeError := "");
      var auth := env.autorizar(f.claveAcceso);
      if auth.Success? then
        var scanned := ScanDeferred(auth.value.autorizaciones, received);
        Processed([ReceivedNote(f, resp.value.estado), AuthStateNote(f, auth.value, env)], scanned, scanned.None?)
      else
        Processed([ReceivedNote(f, resp.value.estado), Note(AuthAction, ErrorStatus, AuthQueryFailDetail, f.claveAcceso, auth.msg)],
          Some(received), false)
    else
      Processed([ReceivedNote(f, resp.value.estado), Note(EnvioAction, WarningStatus, ReturnedDetail, reqLog, "Estado: " + resp.value.estado)],
        Some(f.(estadoSRI := resp.value.estado, mensajeError := ReturnedMessage)), false)
  }

  /** Two records that differ at most in their SRI state and message. */
  predicate SameButState(a: Factura, b: Factura)
  {
    a.(estadoSRI := b.estadoSRI, mensajeError := b.mensajeError) == b
  }

  lemma {:induction false} ScanDeferredKeepsRecord(auths: seq<Autorizacion>, f: Factura)
    ensures ScanDeferred(auths, f).Some? ==> SameButState(f, ScanDeferred(auths, f).value)
  {
    if auths != [] && auths[0].estado != Autorizado && auths[0].mensajes != [] {
      var g := f.(estadoSRI := auths[0].estado, mensajeError := RejectionPrefix + auths[0].mensajes[0].mensaje);
      ScanDeferredKeepsRecord(auths[1..], g);
    }
  }

  /** The loop panics exactly when it meets a message-less rejection before any `AUTORIZADO` entry. */
  lemma {:induction false} ScanDeferredCrash(auths: seq<Autorizacion>, f: Factura)
    ensures ScanDeferred(auths, f).None? <==>
      exists j :: 0 <= j < |auths| && auths[j].mensajes == [] && auths[j].estado != Autorizado
        && forall k :: 0 <= k < j ==> auths[k].estado != Autorizado && auths[k].mensajes != []
  {
    if auths != [] && auths[0].estado != Autorizado && auths[0].mensajes != [] {
      var g := f.(estadoSRI := auths[0].estado, mensajeError := RejectionPrefix + auths[0].mensajes[0].mensaje);
      ScanDeferredCrash(auths[1..], g);
      if ScanDeferred(auths, f).None? {
        var j :| 0 <= j < |auths[1..]| && auths[1..][j].mensajes == [] && auths[1..][j].estado != Autorizado
          && forall k :: 0 <= k < j ==> auths[1..][k].estado != Autorizado && auths[1..][k].mensajes != [];
        assert auths[j + 1] == auths[1..][j];
        assert forall k :: 0 <= k < j + 1 ==> auths[k].estado != Autorizado && auths[k].mensajes != [] by {
          forall k | 0 <= k < j + 1
            ensures auths[k].estado != Autorizado && auths[k].mensajes != []
          {
            if k > 0 {
              assert auths[k] == auths[1..][k - 1];
            }
          }
        }
      } else {
        forall j | 0 <= j < |auths| && auths[j].mensajes == [] && auths[j].estado != Autorizado
          ensures exists k :: 0 <= k < j && (auths[k].estado == Autorizado || auths[k].mensajes == [])
        {
          assert j > 0;
          assert auths[1..][j - 1] == auths[j];
          var k :| 0 <= k < j - 1 && (auths[1..][k].estado == Autorizado || auths[1..][k].mensajes == []);
          assert auths[k + 1] == auths[1..][k];
        }
      }
    } else if auths != [] && auths[0].estado != Autorizado {
      assert auths[0].mensajes == [];
    }
  }

  /** An `AUTORIZADO` first entry authorizes the record and keeps the cleared message. */
  lemma AuthorizedFirst(auths: seq<Autorizacion>, f: Factura)
    requires auths != [] && auths[0].estado == Autorizado
    ensures ScanDeferred(auths, f) == Some(f.(estadoSRI := Autorizado))
  {
  }

  /** Without any `AUTORIZADO` entry, the last entry's state and first message remain. */
  lemma {:induction false} LastRejectionWins(auths: seq<Autorizacion>, f: Factura)
    requires auths != []
    requires forall k :: 0 <= k < |auths| ==> auths[k].estado != Autorizado && auths[k].mensajes != []
    ensures ScanDeferred(auths, f) == Some(f.(estadoSRI := auths[|auths| - 1].estado,
      mensajeError := RejectionPrefix + auths[|auths| - 1].mensajes[0].mensaje))
  {
    var g := f.(estadoSRI := auths[0].estado, mensajeError := RejectionPrefix + auths[0].mensajes[0].mensaje);
    if |auths| > 1 {
      assert auths[1..][|auths[1..]| - 1] == auths[|auths| - 1];
      LastRejectionWins(auths[1..], g);
    }
  }

  /**
   * Retrying one record: a send error logs once and saves nothing, so the record
   * stays `PENDIENTE_ENVIO`; every other path logs twice; a saved record differs
   * from the retried one only in its state and message; a received invoice is at
   * least `RECIBIDA` with no message unless the authorization says otherwise.
   */
  lemma ProcessInvoiceOutcome(f: Factura, env: SyncEnv)
    ensures var p := ProcessInvoice(f, env);
      && (!env.enviar(f.xmlFirmado).Success? <==> |p.notes| == 1)
      && |p.notes| in {1, 2}
      && (!env.enviar(f.xmlFirmado).Success? ==> p.saved.None? && !p.crashed)
      && (p.crashed ==> p.saved.None?)
      && (p.saved.Some? ==> SameButState(f, p.saved.value))
      && (env.enviar(f.xmlFirmado).Success? && env.enviar(f.xmlFirmado).value.estado == Recibida
          && !env.autorizar(f.claveAcceso).Success? ==>
            p.saved == Some(f.(estadoSRI := Recibida, mensajeError := "")))
      && (env.enviar(f.xmlFirmado).Success? && env.enviar(f.xmlFirmado).value.estado != Recibida ==>
            p.saved == Some(f.(estadoSRI := env.enviar(f.xmlFirmado).value.estado, mensajeError := ReturnedMessage)))
  {
    var resp := env.enviar(f.xmlFirmado);
    if resp.Success? && resp.value.estado == Recibida {
      var auth := env.autorizar(f.claveAcceso);
      if auth.Success? {
        ScanDeferredKeepsRecord(auth.value.autorizaciones, f.(estadoSRI := Recibida, mensajeError := ""));
      }
    }
  }

  // ---------------------------------------------------------------- the pass

  /** The positions of the records the pass retries: exactly those in state `PENDIENTE_ENVIO`, in table order. */
  function Pending(fs: seq<Factura>): (idx: seq<nat>)
    ensures forall k :: 0 <= k < |idx| ==> idx[k] < |fs| && fs[idx[k]].estadoSRI == PendienteEnvio
    ensures forall i :: 0 <= i < |fs| ==> (fs[i].estadoSRI == PendienteEnvio <==> i in idx)
    ensures forall k, l :: 0 <= k < l < |idx| ==> idx[k] < idx[l]
  {
    if fs == [] then []
    else
      var rest := Pending(fs[..|fs| - 1]);
      assert forall k :: 0 <= k < |rest| ==> fs[..|fs| - 1][rest[k]] == fs[rest[k]];
      if fs[|fs| - 1].estadoSRI == PendienteEnvio then rest + [|fs| - 1] else rest
  }

  /** What retrying a list of records does: the entries logged, the table afterwards, whether it panicked. */
  datatype BatchOut = BatchOut(notes: seq<Note>, table: seq<Factura>, crashed: bool)

  /**
   * The records at positions `idx` of the snapshot `orig` retried in order,
   * each saved record written into `cur`; a panic stops the batch.
   */
  function Batch(orig: seq<Factura>, idx: seq<nat>, cur: seq<Factura>, env: SyncEnv): (b: BatchOut)
    requires forall k :: 0 <= k < |idx| ==> idx[k] < |orig|
    requires |cur| == |orig|
    ensures |b.table| == |orig|
  {
    if idx == [] then BatchOut([], cur, false)
    else
      var p := ProcessInvoice(orig[idx[0]], env);
      if p.crashed then BatchOut(p.notes, cur, true)
      else
        var next := if p.saved.Some? then cur[idx[0] := p.saved.value] else cur;
        var rest := Batch(orig, idx[1..], next, env);
        BatchOut(p.notes + rest.notes, rest.table, rest.crashed)
  }

  function BatchStartNote(n: nat): Note
  {
    Note(BatchAction, InfoStatus, "Procesando " + NatToString(n) + " facturas pendientes...", "", "")
  }

  const BatchDoneNote: Note := Note(BatchAction, SuccessStatus, "Sincronización finalizada", "", "")
  const OfflineNote: Note := Note(ConnectivityAction, ErrorStatus, "No hay conexión con el SRI", "", "")

  /** The entries one pass logs, in order. */
  function PassNotes(fs: seq<Factura>, env: SyncEnv): seq<Note>
  {
    if !env.connected then [OfflineNote]
    else
      var idx := Pending(fs);
      if idx == [] then []
      else
        var b := Batch(fs, idx, fs, env);
        [BatchStartNote(|idx|)] + b.notes + (if b.crashed then [] else [BatchDoneNote])
  }

  /** The table after one pass. */
  function PassTable(fs: seq<Factura>, env: SyncEnv): seq<Factura>
  {
    if !env.connected then fs else Batch(fs, Pending(fs), fs, env).table
  }

  /** Whether the pass ended in a panic. */
  predicate PassCrashed(fs: seq<Factura>, env: SyncEnv)
  {
    env.connected && Batch(fs, Pending(fs), fs, env).crashed
  }

  /**
   * Saving only ever writes the retried positions, with records that differ
   * only in state and message, and never writes a record whose resend failed.
   */
  lemma {:induction false} BatchWrites(orig: seq<Factura>, idx: seq<nat>, cur: seq<Factura>, env: SyncEnv)
    requires forall k :: 0 <= k < |idx| ==> idx[k] < |orig|
    requires forall k, l :: 0 <= k < l < |idx| ==> idx[k] != idx[l]
    requires |cur| == |orig|
    requires forall i :: 0 <= i < |orig| ==> SameButState(orig[i], cur[i])
    ensures var r := Batch(orig, idx, cur, env).table;
      && (forall i :: 0 <= i < |orig| && i !in idx ==> r[i] == cur[i])
      && (forall i | i in idx && !env.enviar(orig[i].xmlFirmado).Success? :: r[i] == cur[i])
      && (forall i :: 0 <= i < |orig| ==> SameButState(orig[i], r[i]))
  {
    if idx != [] {
      var p := ProcessInvoice(orig[idx[0]], env);
      ProcessInvoiceOutcome(orig[idx[0]], env);
      if !p.crashed {
        var next := if p.saved.Some? then cur[idx[0] := p.saved.value] else cur;
        BatchWrites(orig, idx[1..], next, env);
        var r := Batch(orig, idx, cur, env).table;
        assert idx[0] !in idx[1..];
        forall i | 0 <= i < |orig| && i !in idx
          ensures r[i] == cur[i]
        {
          assert i !in idx[1..];
        }
        forall i | i in idx && !env.enviar(orig[i].xmlFirmado).Success?
          ensures r[i] == cur[i]
        {
          if i != idx[0] {
            assert i in idx[1..];
          }
        }
      }
    }
  }

  /**
   * A pass leaves every record that was not `PENDIENTE_ENVIO` alone, changes
   * nothing but state and message of the others, and keeps a record whose
   * resend fails exactly as it was.
   */
  lemma PassTouchesOnlyPending(fs: seq<Factura>, env: SyncEnv)
    ensures |PassTable(fs, env)| == |fs|
    ensures forall i :: 0 <= i < |fs| && fs[i].estadoSRI != PendienteEnvio ==> PassTable(fs, env)[i] == fs[i]
    ensures forall i :: 0 <= i < |fs| && !env.enviar(fs[i].xmlFirmado).Success? ==> PassTable(fs, env)[i] == fs[i]
    ensures forall i :: 0 <= i < |fs| ==> SameButState(fs[i], PassTable(fs, env)[i])
  {
    if env.connected {
      var idx := Pending(fs);
      BatchWrites(fs, idx, fs, env);
    }
  }

  /** Without connectivity the pass logs one error and touches no record. */
  lemma OfflinePass(fs: seq<Factura>, env: SyncEnv)
    requires !env.connected
    ensures PassNotes(fs, env) == [OfflineNote] && PassTable(fs, env) == fs && !PassCrashed(fs, env)
  {
  }

  /** With nothing pending the pass logs nothing; otherwise it opens with the batch entry and, unless it panicked, closes with the final one. */
  lemma PassFraming(fs: seq<Factura>, env: SyncEnv)
    requires env.connected
    ensures Pending(fs) == [] <==> PassNotes(fs, env) == []
    ensures Pending(fs) != [] ==> PassNotes(fs, env)[0] == BatchStartNote(|Pending(fs)|)
    ensures Pending(fs) != [] && !PassCrashed(fs, env) ==> PassNotes(fs, env)[|PassNotes(fs, env)| - 1] == BatchDoneNote
  {
  }

  /** A batch result with entries logged earlier put in front. */
  function Prefixed(done: seq<Note>, b: BatchOut): BatchOut
  {
    b.(notes := done + b.notes)
  }

  /** One step of `Batch` with the entries of earlier records in front. */
  lemma BatchStep(orig: seq<Factura>, idx: seq<nat>, cur: seq<Factura>, env: SyncEnv, done: seq<Note>)
    requires idx != [] && forall k :: 0 <= k < |idx| ==> idx[k] < |orig|
    requires |cur| == |orig|
    ensures var p := ProcessInvoice(orig[idx[0]], env);
      var next := if p.saved.Some? then cur[idx[0] := p.saved.value] else cur;
      Prefixed(done, Batch(orig, idx, cur, env))
        == if p.crashed then BatchOut(done + p.notes, cur, true) else Prefixed(done + p.notes, Batch(orig, idx[1..], next, env))
  {
    var p := ProcessInvoice(orig[idx[0]], env);
    if !p.crashed {
      var next := if p.saved.Some? then cur[idx[0] := p.saved.value] else cur;
      var rest := Batch(orig, idx[1..], next, env);
      assert done + (p.notes + rest.notes) == (done + p.notes) + rest.notes;
    }
  }

  lemma PushedOne(logs: seq<SyncLog>, s: Stamp, a: Note)
    ensures PushedAll(logs, s, [a]) == Pushed(logs, Stamped(s, a))
  {
    assert [a][1..] == [];
  }

  lemma PushedTwo(logs: seq<SyncLog>, s: Stamp, a: Note, b: Note)
    ensures PushedAll(logs, s, [a, b]) == Pushed(Pushed(logs, Stamped(s, a)), Stamped(s, b))
  {
    assert [a, b][1..] == [b];
    PushedOne(Pushed(logs, Stamped(s, a)), s, b);
  }

  /** The authorization loop of `processSingleInvoice`; `None` where the source panics. */
  method ScanAuthorizations(auths: seq<Autorizacion>, f: Factura) returns (r: Option<Factura>)
    ensures r == ScanDeferred(auths, f)
  {
    var g := f;
    var i := 0;
    while i < |auths|
      invariant 0 <= i <= |auths|
      invariant ScanDeferred(auths[i..], g) == ScanDeferred(auths, f)
    {
      if auths[i].estado == Autorizado {
        g := g.(estadoSRI := Autorizado);
        return Some(g);
      }
      if |auths[i].mensajes| == 0 {
        return None;
      }
      g := g.(estadoSRI := auths[i].estado, mensajeError := RejectionPrefix + auths[i].mensajes[0].mensaje);
      assert auths[i..][1..] == auths[i + 1..];
      i := i + 1;
    }
    return Some(g);
  }

  // ---------------------------------------------------------------- the service

  class SyncService {
    var logs: seq<SyncLog>

    constructor ()
      ensures logs == []
    {
      logs := [];
    }

    /** `AddLog`: put the entry in front and keep at most 100. */
    method AddLog(stamp: Stamp, action: string, status: string, detail: string, req: string, resp: string)
      modifies this
      ensures logs == Pushed(old(logs), Stamped(stamp, Note(action, status, detail, req, resp)))
    {
      var log := SyncLog(IntToString(stamp.nanos), FormatClock(stamp.at), action, status, detail, req, resp);
      logs := [log] + logs;
      if |logs| > 100 {
        logs := logs[..100];
      }
    }

    /** `GetLogs`: a fresh copy, which later entries do not reach. */
    method GetLogs() returns (copia: array<SyncLog>)
      ensures fresh(copia) && copia[..] == logs
    {
      copia := new SyncLog[|logs|];
      var i := 0;
      while i < |logs|
        invariant 0 <= i <= |logs| == copia.Length
        invariant copia[..i] == logs[..i]
        modifies copia
      {
        copia[i] := logs[i];
        i := i + 1;
      }
    }

    /** A copy taken before an `AddLog` still holds the old entries. */
    method SnapshotThenLog(stamp: Stamp, n: Note) returns (copia: array<SyncLog>)
      modifies this
      ensures copia[..] == old(logs)
      ensures logs == Pushed(old(logs), Stamped(stamp, n))
    {
      copia := GetLogs();
      AddLog(stamp, n.action, n.status, n.detail, n.request, n.response);
    }

    /** `processSingleInvoice`: resend, then ask for the authorization of a received invoice. */
    method ProcessSingleInvoice(f: Factura, stamp: Stamp, env: SyncEnv) returns (saved: Option<Factura>, crashed: bool)
      modifies this
      ensures saved == ProcessInvoice(f, env).saved && crashed == ProcessInvoice(f, env).crashed
      ensures logs == PushedAll(old(logs), stamp, ProcessInvoice(f, env).notes)
    {
      var reqLog := "Factura: " + f.secuencial;
      var resp := env.enviar(f.xmlFirmado);
      if !resp.Success? {
        AddLog(stamp, EnvioAction, ErrorStatus, NetworkFailDetail, reqLog, resp.msg);
        PushedOne(old(logs), stamp, Note(EnvioAction, ErrorStatus, NetworkFailDetail, reqLog, resp.msg));
        return None, false;
      }
      var respStr := "Estado: " + resp.value.estado;
      var sent := Note(EnvioAction, SuccessStatus, "Factura " + f.secuencial + " enviada", reqLog, respStr);
      AddLog(stamp, sent.action, sent.status, sent.detail, sent.request, sent.response);
      var second: Note;
      if resp.value.estado == Recibida {
        var received := f.(estadoSRI := Recibida, mensajeError := "");
        var respAuth := env.autorizar(f.claveAcceso);
        if respAuth.Success? {
          var auths := respAuth.value.autorizaciones;
          var authStatus := UnknownAuthState;
          if |auths| > 0 {
            authStatus := auths[0].estado;
          }
          second := Note(AuthAction, InfoStatus, "Estado Auth: " + authStatus, f.claveAcceso, env.dump(respAuth.value));
          AddLog(stamp, second.action, second.status, second.detail, second.request, second.response);
          saved := ScanAuthorizations(auths, received);
          crashed := saved.None?;
        } else {
          second := Note(AuthAction, ErrorStatus, AuthQueryFailDetail, f.claveAcceso, respAuth.msg);
          AddLog(stamp, second.action, second.status, second.detail, second.request, second.response);
          saved, crashed := Some(received), false;
        }
      } else {
        second := Note(EnvioAction, WarningStatus, ReturnedDetail, reqLog, respStr);
        AddLog(stamp, second.action, second.status, second.detail, second.request, second.response);
        saved, crashed := Some(f.(estadoSRI := resp.value.estado, mensajeError := ReturnedMessage)), false;
      }
      assert ProcessInvoice(f, env).notes == [sent, second];
      PushedTwo(old(logs), stamp, sent, second);
    }

    /** The worker loop of `SyncPendingInvoices`, run one record after the other. */
    method RetryBatch(store: Store, snapshot: seq<Factura>, pending: seq<nat>, stamp: Stamp, env: SyncEnv) returns (crashed: bool)
      requires forall k :: 0 <= k < |pending| ==> pending[k] < |snapshot|
      requires store.facturas == snapshot
      modifies this, store`facturas
      ensures logs == PushedAll(old(logs), stamp, Batch(snapshot, pending, snapshot, env).notes)
      ensures store.facturas == Batch(snapshot, pending, snapshot, env).table
      ensures crashed == Batch(snapshot, pending, snapshot, env).crashed
    {
      ghost var done: seq<Note> := [];
      var k := 0;
      assert pending[k..] == pending;
      assert Prefixed(done, Batch(snapshot, pending, snapshot, env)).notes == Batch(snapshot, pending, snapshot, env).notes;
      while k < |pending|
        invariant 0 <= k <= |pending|
        invariant |store.facturas| == |snapshot|
        invariant Batch(snapshot, pending, snapshot, env) == Prefixed(done, Batch(snapshot, pending[k..], store.facturas, env))
        invariant logs == PushedAll(old(logs), stamp, done)
      {
        assert pending[k..][1..] == pending[k + 1..];
        BatchStep(snapshot, pending[k..], store.facturas, env, done);
        var p := ProcessInvoice(snapshot[pending[k]], env);
        var saved, crash := ProcessSingleInvoice(snapshot[pending[k]], stamp, env);
        PushedAllAppend(old(logs), stamp, done, p.notes);
        done := done + p.notes;
        if crash {
          assert Batch(snapshot, pending, snapshot, env).notes == done;
          return true;
        }
        if saved.Some? {
          store.facturas := store.facturas[pending[k] := saved.value];
        }
        k := k + 1;
      }
      assert pending[k..] == [];
      assert done + [] == done;
      assert Batch(snapshot, pending, snapshot, env).notes == done;
      return false;
    }

    /**
     * `SyncPendingInvoices`: check connectivity, retry every `PENDIENTE_ENVIO`
     * record of a snapshot of the table, save each retried record that has a
     * new state, and log the batch.
     */
    method SyncPendingInvoices(store: Store, stamp: Stamp, env: SyncEnv) returns (crashed: bool)
      modifies this, store`facturas
      ensures logs == PushedAll(old(logs), stamp, PassNotes(old(store.facturas), env))
      ensures store.facturas == PassTable(old(store.facturas), env)
      ensures crashed == PassCrashed(old(store.facturas), env)
    {
      if !env.connected {
        AddLog(stamp, ConnectivityAction, ErrorStatus, "No hay conexión con el SRI", "", "");
        PushedOne(old(logs), stamp, OfflineNote);
        return false;
      }
      var snapshot := store.facturas;
      var pending := Pending(snapshot);
      if |pending| == 0 {
        assert PassNotes(snapshot, env) == [];
        return false;
      }
      var start := BatchStartNote(|pending|);
      AddLog(stamp, start.action, start.status, start.detail, start.request, start.response);
      PushedOne(old(logs), stamp, start);
      ghost var b := Batch(snapshot, pending, snapshot, env);
      crashed := RetryBatch(store, snapshot, pending, stamp, env);
      PushedAllAppend(old(logs), stamp, [start], b.notes);
      if !crashed {
        AddLog(stamp, BatchDoneNote.action, BatchDoneNote.status, BatchDoneNote.detail, BatchDoneNote.request, BatchDoneNote.response);
        PushedOne(PushedAll(old(logs), stamp, [start] + b.notes), stamp, BatchDoneNote);
        PushedAllAppend(old(logs), stamp, [start] + b.notes, [BatchDoneNote]);
        assert PassNotes(snapshot, env) == [start] + b.notes + [BatchDoneNote];
      } else {
        assert PassNotes(snapshot, env) == [start] + b.notes + [];
        assert [start] + b.notes + [] == [start] + b.notes;
      }
    }
  }
}

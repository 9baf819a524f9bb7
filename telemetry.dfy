/** Decoded ArduPilot DataFlash telemetry as the analysis sees it: a sequence of
    typed messages with named numeric fields, and the order-preserving field
    filters that the series extractors build from it. The binary decoder itself
    is not part of this model; a log is the sequence of messages it yields. */
module Telemetry {

  /** One decoded log message: its type tag (`CTUN`, `BAT`, ...) and the fields
      it carries. A field the message lacks is simply absent from the map. */
  datatype Message = Message(kind: string, fields: map<string, real>)

  /** Outcome of an extraction. Reading a field that a message does not carry
      raises AttributeError in the analysed code; looking up a missing dictionary
      key raises KeyError. */
  datatype Result<T> =
    | Ok(value: T)
    | AttributeError(kind: string, field: string)
    | KeyError(key: string)

  /** Number of messages of type `kind` in the log. */
  function Count(log: seq<Message>, kind: string): (n: nat)
    ensures n <= |log|
  {
    if log == [] then 0
    else Count(log[..|log| - 1], kind) + (if log[|log| - 1].kind == kind then 1 else 0)
  }

  /** Every message of type `kind` carries `field`. */
  ghost predicate Complete(log: seq<Message>, kind: string, field: string)
  {
    forall i :: 0 <= i < |log| && log[i].kind == kind ==> field in log[i].fields
  }

  /** What one message contributes to the `field` series of type `kind`: its
      value when the message has that type and carries the field. */
  function Picked(m: Message, kind: string, field: string): (r: seq<real>)
    ensures |r| <= 1
    ensures |r| == 1 <==> m.kind == kind && field in m.fields
    ensures |r| == 1 ==> r[0] == m.fields[field]
  {
    if m.kind == kind && field in m.fields then [m.fields[field]] else []
  }

  /** The values of `field` of every message of type `kind` that carries it, in
      log order: what a `recv_match(type=kind)` loop guarded by `hasattr` collects. */
  function FieldValues(log: seq<Message>, kind: string, field: string): (r: seq<real>)
    ensures |r| <= Count(log, kind)
    ensures Complete(log, kind, field) ==> |r| == Count(log, kind)
  {
    if log == [] then []
    else
      var m := log[|log| - 1];
      assert Complete(log, kind, field) ==> Complete(log[..|log| - 1], kind, field);
      FieldValues(log[..|log| - 1], kind, field) + Picked(m, kind, field)
  }

  /** One more message extends the series by that message's contribution and
      keeps completeness exactly when the message carries the field. */
  lemma FieldValuesStep(log: seq<Message>, n: nat, kind: string, field: string)
    requires n < |log|
    ensures FieldValues(log[..n + 1], kind, field) == FieldValues(log[..n], kind, field) + Picked(log[n], kind, field)
    ensures Complete(log[..n + 1], kind, field)
            <==> Complete(log[..n], kind, field) && (log[n].kind == kind ==> field in log[n].fields)
  {
    assert log[..n + 1][..n] == log[..n];
    assert log[..n + 1][n] == log[n];
  }

  /** Extraction distributes over concatenation of logs: each message
      contributes independently and in place, so FieldValues is an
      order-preserving filter. */
  lemma {:induction false} FieldValuesAppend(a: seq<Message>, b: seq<Message>, kind: string, field: string)
    ensures FieldValues(a + b, kind, field) == FieldValues(a, kind, field) + FieldValues(b, kind, field)
    decreases |b|
  {
    if b == [] {
      assert a + b == a;
    } else {
      var b' := b[..|b| - 1];
      assert (a + b)[..|a + b| - 1] == a + b';
      FieldValuesAppend(a, b', kind, field);
    }
  }

  /** What one message contributes: its field value if it has the type and the
      field, nothing otherwise. */
  lemma FieldValuesSingle(m: Message, kind: string, field: string)
    ensures FieldValues([m], kind, field) == Picked(m, kind, field)
  {
    assert [m][..0] == [];
  }

  /** A log holding no message of the requested type yields an empty series. */
  lemma {:induction false} FieldValuesOfAbsentKind(log: seq<Message>, kind: string, field: string)
    requires Count(log, kind) == 0
    ensures FieldValues(log, kind, field) == []
  {
  }

  /** Every extracted value is the field of some message of the requested type,
      and every such message that carries the field contributes its value. */
  lemma {:induction false} FieldValuesMembers(log: seq<Message>, kind: string, field: string)
    ensures forall v :: v in FieldValues(log, kind, field) ==>
              exists i :: 0 <= i < |log| && log[i].kind == kind && field in log[i].fields
                          && log[i].fields[field] == v
    ensures forall i :: 0 <= i < |log| && log[i].kind == kind && field in log[i].fields ==>
              log[i].fields[field] in FieldValues(log, kind, field)
  {
    if log != [] {
      var p := log[..|log| - 1];
      FieldValuesMembers(p, kind, field);
      forall i | 0 <= i < |log| - 1
        ensures log[i] == p[i]
      {
      }
    }
  }
}

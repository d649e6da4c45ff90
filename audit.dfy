/** The audit trail: the action and resource vocabulary, the JSON
    serializer applied to old/new value dictionaries before they are
    stored, and the shape of one audit record. */
module Audit {
  import opened Base
  import opened Dates

  const ActionCreate := "CREATE"
  const ActionRead := "READ"
  const ActionUpdate := "UPDATE"
  const ActionDelete := "DELETE"
  const ActionLogin := "LOGIN"
  const ActionLogout := "LOGOUT"

  const ResourceClient := "client"
  const ResourcePolicy := "policy"
  const ResourceUser := "user"
  const ResourceBranch := "branch"

  /** A Python value as it can appear in an audit dictionary.
      `DecimalV(units, scale)` is the Decimal units * 10^-scale; `FloatV(units, scale)`
      is the float that `float()` makes of it. */
  datatype Value =
    | Null
    | Bool(b: bool)
    | Int(i: int)
    | Str(s: string)
    | DateV(d: Date)
    | DateTimeV(t: DateTime)
    | DecimalV(units: int, scale: nat)
    | FloatV(units: int, scale: nat)
    | Dict(entries: seq<Entry>)
    | List(items: seq<Value>)

  datatype Entry = Entry(key: string, val: Value)

  /** No date, datetime or Decimal anywhere inside: what the JSON column accepts. */
  predicate JsonReady(v: Value) {
    match v
    case DateV(_) => false
    case DateTimeV(_) => false
    case DecimalV(_, _) => false
    case Dict(es) => forall i :: 0 <= i < |es| ==> JsonReady(es[i].val)
    case List(xs) => forall i :: 0 <= i < |xs| ==> JsonReady(xs[i])
    case _ => true
  }

  /** `serialize_for_json`. */
  function Serialize(v: Value): (r: Value)
    ensures JsonReady(r)
    ensures v.DateV? ==> r == Str(IsoDate(v.d))
    ensures v.DateTimeV? ==> r == Str(IsoDateTime(v.t))
    ensures v.DecimalV? ==> r == FloatV(v.units, v.scale)
    ensures v.Null? || v.Bool? || v.Int? || v.Str? || v.FloatV? ==> r == v
    ensures v.Dict? ==> (r.Dict? && |r.entries| == |v.entries|
                         && forall i :: 0 <= i < |v.entries| ==> r.entries[i].key == v.entries[i].key)
    ensures v.List? ==> r.List? && |r.items| == |v.items|
  {
    match v
    case DateV(d) => Str(IsoDate(d))
    case DateTimeV(t) => Str(IsoDateTime(t))
    case DecimalV(u, s) => FloatV(u, s)
    case Dict(es) => Dict(seq(|es|, i requires 0 <= i < |es| => Entry(es[i].key, Serialize(es[i].val))))
    case List(xs) => List(seq(|xs|, i requires 0 <= i < |xs| => Serialize(xs[i])))
    case _ => v
  }

  /** A value already free of dates and Decimals is left exactly as it is; so are
      None, booleans, integers, strings and floats. */
  lemma {:induction false} SerializeFixesReady(v: Value)
    requires JsonReady(v)
    ensures Serialize(v) == v
  {
    match v
    case Dict(es) =>
      var r := Serialize(v);
      forall i | 0 <= i < |es| ensures r.entries[i] == es[i] {
        SerializeFixesReady(es[i].val);
      }
      assert r.entries == es;
    case List(xs) =>
      var r := Serialize(v);
      forall i | 0 <= i < |xs| ensures r.items[i] == xs[i] {
        SerializeFixesReady(xs[i]);
      }
      assert r.items == xs;
    case _ =>
  }

  /** Serializing twice is serializing once. */
  lemma SerializeIdempotent(v: Value)
    ensures Serialize(Serialize(v)) == Serialize(v)
  {
    SerializeFixesReady(Serialize(v));
  }

  /** The serializer changes a value exactly when the JSON column could not store it. */
  lemma SerializeChangesOnlyUnready(v: Value)
    ensures Serialize(v) == v <==> JsonReady(v)
  {
    if JsonReady(v) {
      SerializeFixesReady(v);
    }
  }

  /** One row of `audit_logs`; `timestamp` is the instant of insertion in microseconds. */
  datatype AuditLog = AuditLog(
    id: int,
    userId: int,
    action: string,
    resourceType: string,
    resourceId: int,
    oldValues: Option<Value>,
    newValues: Option<Value>,
    timestamp: int,
    ipAddress: Option<string>,
    userAgent: Option<string>)

  /** What `log_action` stores for an old/new dictionary: nothing for a missing or
      empty one, and its serialization otherwise. */
  function StoredValues(values: Option<seq<Entry>>): (r: Option<Value>)
    ensures r.None? <==> values.None? || values.value == []
    ensures r.Some? ==> JsonReady(r.value) && r.value.Dict?
    ensures r.Some? ==> |r.value.entries| == |values.value|
    ensures r.Some? ==> forall i :: 0 <= i < |values.value| ==>
                          r.value.entries[i] == Entry(values.value[i].key, Serialize(values.value[i].val))
  {
    if values.None? || values.value == [] then None else Some(Serialize(Dict(values.value)))
  }
}

/**
 * The session record: a Python dict from field name to value. A key can be
 * absent, or present and bound to `None`; the model keeps that distinction
 * because the engine reads fields with both `session[k]` and `session.get(k, d)`.
 */
module SessionModel {

  /** The values a session dict holds: strings, integer doctor ids, and `None`. */
  datatype Value = Str(s: string) | Int(n: int) | Null

  type Record = map<string, Value>

  const INIT := "INIT"

  /** The seven optional fields of `SessionData`, all defaulting to `None`. */
  const OPTIONAL_FIELDS: seq<string> :=
    ["symptoms", "speciality", "doctor", "date", "time", "patient_name", "phone"]

  /** `SessionData(state="INIT").dict()`: what a backend hands out for an unknown session. */
  function FreshRecord(): (r: Record)
    ensures r.Keys == {"state", "symptoms", "speciality", "doctor", "date", "time", "patient_name", "phone"}
    ensures r["state"] == Str(INIT)
    ensures forall k :: k in OPTIONAL_FIELDS ==> r[k] == Null
  {
    map[
      "state" := Str(INIT),
      "symptoms" := Null,
      "speciality" := Null,
      "doctor" := Null,
      "date" := Null,
      "time" := Null,
      "patient_name" := Null,
      "phone" := Null
    ]
  }

  /**
   * A fresh record carries `state` and the seven optional fields and nothing
   * else: the keys the engine adds later (`doctor_id`, `doctor_name`) are absent.
   */
  lemma FreshRecordShape()
    ensures forall k :: k in FreshRecord() <==> k == "state" || k in OPTIONAL_FIELDS
    ensures "doctor_id" !in FreshRecord() && "doctor_name" !in FreshRecord()
  {
  }

  /** `d.get(key, default)`. */
  function Get(d: Record, key: string, default: Value): Value {
    if key in d then d[key] else default
  }

  /** Decimal digits of a natural number, as `str(n)` writes them. */
  function Digits(n: nat): (r: string)
    ensures r != [] && forall i :: 0 <= i < |r| ==> '0' <= r[i] <= '9'
    decreases n
  {
    var last := ['0' + (n % 10) as char];
    if n < 10 then last else Digits(n / 10) + last
  }

  /** How an f-string renders a value: a string as itself, `None` as "None", an integer in decimal. */
  function Show(v: Value): string {
    match v
    case Str(s) => s
    case Null => "None"
    case Int(n) => if n < 0 then "-" + Digits(-n) else Digits(n)
  }
}

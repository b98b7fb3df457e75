/** Dynamic document values: the `[String: Any]` dictionaries that the
    document store hands to the view models, and the field keys the app
    reads and writes (the `FirebaseConstants` table). */
module Values {

  /** Swift's `Optional`. */
  datatype Option<+T> = None | Some(value: T) {
    /** `self ?? default` */
    function GetOr(default: T): T {
      match this
      case Some(v) => v
      case None => default
    }
  }

  /** A store timestamp, treated as an opaque instant. */
  datatype Timestamp = Timestamp(instant: int)

  /** The values a document dictionary can hold, as far as the app cares:
      only `Str` and `Stamp` are ever cast to; the rest stand for "anything
      else" (numbers, booleans, a boxed `nil`). */
  datatype Value =
    | Str(s: string)
    | Num(n: int)
    | Flag(b: bool)
    | Stamp(t: Timestamp)
    | Null

  /** A document's data, `[String: Any]`. */
  type Dict = map<string, Value>

  const UidKey: string := "uid"
  const FromIdKey: string := "fromId"
  const ToIdKey: string := "toId"
  const TextKey: string := "text"
  const TimestampKey: string := "timestamp"
  const ProfileImageUrlKey: string := "profileImageUrl"
  const EmailKey: string := "email"

  /** True when `data[key] as? String` succeeds with `s`. */
  predicate HoldsString(data: Dict, key: string, s: string) {
    key in data && data[key] == Str(s)
  }

  /** True when `data[key] as? String` yields `nil`: the key is missing or
      its value is not a string. */
  predicate LacksString(data: Dict, key: string) {
    key !in data || !data[key].Str?
  }

  /** `v as? String ?? ""` for a value taken out of a dictionary. */
  function StringOr(v: Value): string {
    if v.Str? then v.s else ""
  }

  /** `data[key] as? String ?? ""` */
  function StringField(data: Dict, key: string): string {
    if key in data then StringOr(data[key]) else ""
  }

  /** An optional string stored into a dictionary (`String?` as `Any`):
      a present string is stored as such, an absent one as a boxed `nil`. */
  function OptionalString(o: Option<string>): (v: Value)
    ensures o.Some? <==> v.Str?
    ensures o.Some? ==> v.s == o.value
  {
    match o
    case Some(s) => Str(s)
    case None => Null
  }
}

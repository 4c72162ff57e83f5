/** Keys, values and write commands shared by the Raft layer and the storage engine. */
module Commands {

  datatype Option<+T> = None | Some(value: T)

  type Byte = b: int | 0 <= b < 256

  /** A string is its UTF-8 byte sequence: that is what is compared, hashed and stored. */
  type Bytes = seq<Byte>

  type Key = Bytes

  /** `Float` carries the 64 bits of the number; only its text form is ever stored on disk. */
  datatype Value = Int(i: int) | Float(bits: nat) | Str(text: Bytes)

  datatype Command = Set(key: Key, value: Value) | Delete(key: Key)

  /** The plain map that both the replicated state machine and the storage engine implement. */
  function Apply(m: map<Key, Value>, c: Command): map<Key, Value> {
    match c
    case Set(k, v) => m[k := v]
    case Delete(k) => m - {k}
  }

  /** What a read of `k` sees in a plain map. */
  function Get(m: map<Key, Value>, k: Key): Option<Value> {
    if k in m then Some(m[k]) else None
  }
}

/** Value types shared by every part of the indexer: records pulled from a chain, block
    metadata, decoded rows, and the outcome types of fallible operations. */
module Model {

  datatype Option<+T> = None | Some(value: T)

  datatype Result<+T, +E> = Ok(value: T) | Err(error: E)

  newtype Byte = x: int | 0 <= x < 256

  /** Variable-length byte strings: block hashes, transaction ids, addresses, selectors. */
  type Hash = seq<Byte>

  /** Where a record sits on a chain; the primary key of `raw_records` and of event tables. */
  datatype Position = Position(chain: nat, height: nat, idx: nat)

  /** A raw log as pulled from the chain, before decoding. */
  datatype RawRecord = RawRecord(
    chain: nat, height: nat, index: nat, blockHash: Hash, address: Hash, selectors: seq<Hash>,
    data: seq<Byte>, txId: Hash, txIndex: nat, innerIndex: Option<nat>)
  {
    function Pos(): Position {
      Position(chain, height, index)
    }
  }

  datatype BlockMeta = BlockMeta(chain: nat, height: nat, hash: Hash, parentHash: Hash, time: int)

  /** A decoded field value. Numbers are kept as decimal text, as the database receives them. */
  datatype EventValue =
    | Address(bytes: seq<Byte>)
    | Uint(text: string)
    | Int(text: string)
    | Bool(flag: bool)
    | Bytes(bytes: seq<Byte>)
    | Str(text: string)
    | Digest(bytes: seq<Byte>)
    | Json(text: string)

  /** A decoded row together with the typed table it belongs to. */
  datatype EventRow = EventRow(
    chain: nat, height: nat, blockHash: Hash, blockTime: Option<int>, txId: Hash, index: nat,
    table: string, fields: seq<(string, EventValue)>)

  /** The per-chain cursor row. */
  datatype Checkpoint = Checkpoint(height: nat, hash: Hash)

  /** What holds at first and is kept from each state to the next holds all along. */
  lemma {:induction false} AllAlong<S>(holds: S -> bool, states: seq<S>, k: nat)
    requires k < |states| && holds(states[0])
    requires forall i, j :: 0 <= i && j == i + 1 && j < |states| && holds(states[i]) ==> holds(states[j])
    ensures holds(states[k])
  {
    if k > 0 {
      var i := k - 1;
      AllAlong(holds, states, i);
      assert k == i + 1;
    }
  }

  lemma MulMonotone(a: nat, b: nat, m: nat)
    requires a <= b
    ensures a * m <= b * m
  {
    assert b * m == a * m + (b - a) * m;
  }
}

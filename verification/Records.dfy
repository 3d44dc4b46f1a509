/** The stored entities: records, their encodings, snapshot rows and log operations. */
module Records {
  import opened Wrappers

  const SUMMARY_TAG := "summary"

  datatype Record = Record(
    id: nat,
    text: string,
    subject: Option<string>,
    tags: seq<string>,
    eventTime: int,
    ingestTime: int,
    validTo: Option<int>,
    importance: real,
    hits: nat,
    lastHit: Option<int>,
    sourceIds: seq<nat>)
  {
    predicate IsLive() {
      validTo.None?
    }

    predicate IsSummary() {
      SUMMARY_TAG in tags
    }
  }

  /** The lexical vector and the sketch of a text; recovery only ever copies them. */
  datatype Encoding = Encoding(lexIdx: seq<nat>, lexVals: seq<real>, skWords: seq<nat>, skNz: nat)

  datatype StoredDoc = StoredDoc(record: Record, enc: Encoding)

  datatype SnapshotRow = SnapshotRow(record: Record, enc: Encoding, archived: bool)

  datatype WalOp =
    | Remember(row: SnapshotRow)
    | Forget(id: nat, at: int)
    | Touch(id: nat, at: int)
    | HardDelete(id: nat)
    | Archive(id: nat)

  /** The one id an operation is about. */
  function OpId(op: WalOp): nat {
    match op
    case Remember(row) => row.record.id
    case Forget(id, _) => id
    case Touch(id, _) => id
    case HardDelete(id) => id
    case Archive(id) => id
  }

  function DocOf(row: SnapshotRow): StoredDoc {
    StoredDoc(row.record, row.enc)
  }

  function Ended(d: StoredDoc, at: int): StoredDoc {
    d.(record := d.record.(validTo := Some(at)))
  }

  function Touched(d: StoredDoc, at: int): StoredDoc {
    d.(record := d.record.(hits := d.record.hits + 1, lastHit := Some(at)))
  }

  predicate Ascii(s: string) {
    forall c :: c in s ==> c as int < 0x80
  }

  /** Every character of the logged line takes one byte; only stored strings can hold others. */
  predicate SingleBytes(op: WalOp) {
    op.Remember? ==>
      var r := op.row.record;
      && Ascii(r.text) && (r.subject.Some? ==> Ascii(r.subject.value))
      && forall tag :: tag in r.tags ==> Ascii(tag)
  }
}

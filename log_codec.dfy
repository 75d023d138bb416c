/**
 * The JSON coding of a list of drink records, as the store uses it through
 * `JSONEncoder().encode(dailyLogs)` and
 * `JSONDecoder().decode([DrinkLog].self, from: dailyLogsData)`
 * (ViewModel/WaterData.swift).
 *
 * The byte-level JSON text is abstracted to a sequence of integer words:
 * a header holding the number of records (the enclosing array), then three
 * words per record in list order (the object's `id`, `date` and `amount`).
 * What the model keeps from the real coder is where it fails and its
 * round trip:
 *  - encoding fails exactly when some record's date is not finite (the
 *    encoder's default strategy for non-conforming floating-point values
 *    throws);
 *  - decoding fails on empty data (the persisted slot's default value), on
 *    a malformed layout, on an identifier that is not a UUID and on an
 *    amount outside the 64-bit `Int` range;
 *  - decoding what was encoded gives back the same records in the same
 *    order.
 * In this word layout each list has exactly one encoding, so re-encoding
 * what was decoded also gives back the same data (`EncodeDecode`). That is
 * a property of the word model only: the JSON decoder also accepts
 * whitespace, keys in any order, unknown keys and lower-case UUID strings,
 * none of which the encoder writes back.
 */
module LogCodec {
  import opened Wrappers
  import opened DrinkLogs

  /** The contents of the persisted slot. */
  type Data = seq<int>

  /** Every date in `logs` can be written. */
  predicate Encodable(logs: seq<DrinkLog>) {
    forall i :: 0 <= i < |logs| ==> logs[i].date.At?
  }

  /** The three words of one record. */
  function RecordWords(log: DrinkLog): (w: seq<int>)
    requires log.date.At?
    ensures |w| == 3
  {
    [log.id as int, log.date.ticks, log.amount as int]
  }

  /** The records' words, one block of three per record, in list order. */
  function Words(logs: seq<DrinkLog>): (w: seq<int>)
    requires Encodable(logs)
    ensures |w| == 3 * |logs|
  {
    if logs == [] then [] else RecordWords(logs[0]) + Words(logs[1..])
  }

  /** Encoding a whole list: fails exactly when some date is not finite. */
  function Encode(logs: seq<DrinkLog>): (r: Option<Data>)
    ensures r.Some? <==> Encodable(logs)
    ensures r.Some? ==> |r.value| == 1 + 3 * |logs| && r.value[0] == |logs|
  {
    if Encodable(logs) then Some([|logs|] + Words(logs)) else None
  }

  /** Reads back the blocks of three words; `None` if a block is short or holds a value out of range. */
  function DecodeWords(w: seq<int>): (r: Option<seq<DrinkLog>>)
    ensures r.Some? ==> Encodable(r.value) && 3 * |r.value| == |w|
  {
    if w == [] then Some([])
    else if |w| < 3 then None
    else if !(0 <= w[0] < UUID_COUNT) || !(INT64_MIN <= w[2] <= INT64_MAX) then None
    else
      match DecodeWords(w[3..])
      case None => None
      case Some(rest) => Some([DrinkLog(w[0] as Uuid, At(w[1]), w[2] as Int64)] + rest)
  }

  /** Decoding a whole list: the header must count the records that follow. */
  function Decode(d: Data): (r: Option<seq<DrinkLog>>)
    ensures d == [] ==> r.None?
    ensures r.Some? ==> Encodable(r.value) && |d| == 1 + 3 * |r.value|
  {
    if d == [] then None
    else
      match DecodeWords(d[1..])
      case None => None
      case Some(logs) => if d[0] == |logs| then Some(logs) else None
  }

  /** The block of record `k` sits at words `3k .. 3k+3`: the data keeps the list's order. */
  lemma {:induction false} WordsAt(logs: seq<DrinkLog>, k: nat)
    requires Encodable(logs) && k < |logs|
    ensures Words(logs)[3 * k .. 3 * k + 3] == RecordWords(logs[k])
  {
    if k > 0 {
      WordsAt(logs[1..], k - 1);
      assert Words(logs) == RecordWords(logs[0]) + Words(logs[1..]);
    }
  }

  lemma {:induction false} DecodeWordsOfWords(logs: seq<DrinkLog>)
    requires Encodable(logs)
    ensures DecodeWords(Words(logs)) == Some(logs)
  {
    if logs != [] {
      var w := Words(logs);
      assert w[3..] == Words(logs[1..]);
      DecodeWordsOfWords(logs[1..]);
      assert [logs[0]] + logs[1..] == logs;
    }
  }

  lemma {:induction false} WordsOfDecodeWords(w: seq<int>)
    requires DecodeWords(w).Some?
    ensures Words(DecodeWords(w).value) == w
  {
    if w != [] {
      var rest := DecodeWords(w[3..]).value;
      var head := DrinkLog(w[0] as Uuid, At(w[1]), w[2] as Int64);
      assert DecodeWords(w).value == [head] + rest;
      WordsOfDecodeWords(w[3..]);
      assert ([head] + rest)[1..] == rest;
      calc {
        Words([head] + rest);
        RecordWords(head) + Words(rest);
        w[..3] + w[3..];
        w;
      }
    }
  }

  /** Round trip: what was encoded decodes to the same records, in the same order. */
  lemma DecodeEncode(logs: seq<DrinkLog>)
    requires Encodable(logs)
    ensures Encode(logs).Some? && Decode(Encode(logs).value) == Some(logs)
  {
    var d := Encode(logs).value;
    assert d[1..] == Words(logs);
    DecodeWordsOfWords(logs);
  }

  /** In the word model, data that decodes is exactly the encoding of what it decodes to. */
  lemma EncodeDecode(d: Data)
    requires Decode(d).Some?
    ensures Encode(Decode(d).value) == Some(d)
  {
    WordsOfDecodeWords(d[1..]);
    assert d == [d[0]] + d[1..];
  }
}

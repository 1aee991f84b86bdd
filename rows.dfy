/**
 * An exported record: the ordered key => value list that a record's
 * __toArray() produces. Keys are column names of the GTFS file; values are
 * the stored field values, None standing for an unset (null) field.
 */
module Rows {
  import opened Wrappers

  type Row = seq<(string, Option<string>)>

  /** The column names of a row, in row order. */
  function Keys(row: Row): (ks: seq<string>) {
    seq(|row|, i requires 0 <= i < |row| => row[i].0)
  }

  /** No column name occurs twice. */
  predicate Distinct(ks: seq<string>) {
    forall i, j :: 0 <= i < j < |ks| ==> ks[i] != ks[j]
  }

  /**
   * The entry stored under a key, as an associative-array read: None when
   * the key is absent, Some(v) with v the stored (possibly unset) value.
   */
  function Lookup(row: Row, key: string): (r: Option<Option<string>>)
    ensures r.Some? <==> key in Keys(row)
    ensures r.Some? ==> (key, r.value) in row
  {
    if row == [] then None
    else if row[0].0 == key then
      assert Keys(row)[0] == key;
      Some(row[0].1)
    else
      assert Keys(row) == [row[0].0] + Keys(row[1..]);
      Lookup(row[1..], key)
  }

  /** The field value read back under a key; an absent key reads as unset. */
  function FieldOf(row: Row, key: string): (v: Option<string>) {
    match Lookup(row, key)
    case Some(v) => v
    case None => None
  }

  /** In a row with distinct keys, reading back the key at position i gives the value there. */
  lemma {:induction false} LookupAt(row: Row, i: nat)
    requires Distinct(Keys(row))
    requires i < |row|
    ensures Lookup(row, row[i].0) == Some(row[i].1)
    ensures FieldOf(row, row[i].0) == row[i].1
  {
    if i > 0 {
      assert Keys(row)[0] != Keys(row)[i];
      assert Keys(row[1..]) == Keys(row)[1..];
      LookupAt(row[1..], i - 1);
    }
  }

  /** A row all of whose values are unset. */
  predicate AllUnset(row: Row) {
    forall i :: 0 <= i < |row| ==> row[i].1 == None
  }
}

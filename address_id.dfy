/**
 * Address identity (`Geocoder._generate_id`): the building and address
 * identifiers are a hash of the lower-cased concatenation of the address
 * fields. The hash (SHA-256 of the UTF-8 bytes, as hex) is a parameter, so
 * every property below holds for any hash function.
 */
module AddressId {

  /** A table cell that `str()` turns into text; a missing value prints as "nan". */
  datatype Cell = Text(text: string) | Missing

  function Str(c: Cell): string {
    match c
    case Text(t) => t
    case Missing => "nan"
  }

  /** One row of the address table: the four address columns, the unit column and any other columns. */
  datatype AddressRow = AddressRow(street: string, city: string, state: string, zip: string,
                                   unit: Cell, others: seq<string>)

  /** The id an address row gets before the hash: `"".join(components).lower()`. */
  function IdKey(row: AddressRow, includeUnit: bool, hasUnitCol: bool): string {
    Lower(row.street + row.city + row.state + row.zip
          + (if includeUnit && hasUnitCol then Str(row.unit) else ""))
  }

  /**
   * `_generate_id(row, include_unit)`; `hasUnitCol` says whether the geocoder
   * was given a unit column (`self.unit_col` is set).
   */
  function GenerateId(hash: string -> string, row: AddressRow, includeUnit: bool, hasUnitCol: bool): string
  {
    hash(IdKey(row, includeUnit, hasUnitCol))
  }

  /** `str.lower()` on one character, for the ASCII letters. */
  function LowerChar(c: char): (d: char)
    ensures !('A' <= d <= 'Z')
    ensures 'A' <= c <= 'Z' || d == c
  {
    if 'A' <= c <= 'Z' then (c as int - 'A' as int + 'a' as int) as char else c
  }

  /** `str.lower()` on a string. */
  function Lower(s: string): (r: string)
    ensures |r| == |s|
    ensures forall i :: 0 <= i < |s| ==> r[i] == LowerChar(s[i])
  {
    seq(|s|, i requires 0 <= i < |s| => LowerChar(s[i]))
  }

  lemma LowerConcat(a: string, b: string)
    ensures Lower(a + b) == Lower(a) + Lower(b)
  {
    assert forall i :: 0 <= i < |a| + |b| ==> (a + b)[i] == if i < |a| then a[i] else b[i - |a|];
  }

  /** Two strings `SameUpToCase` when lower-casing makes them equal. */
  predicate SameUpToCase(a: string, b: string) {
    Lower(a) == Lower(b)
  }

  /**
   * Changing the letter case of any address field (and of the unit, when it
   * is hashed) leaves the identifier unchanged.
   */
  lemma IdIgnoresCase(hash: string -> string, r1: AddressRow, r2: AddressRow, includeUnit: bool, hasUnitCol: bool)
    requires SameUpToCase(r1.street, r2.street) && SameUpToCase(r1.city, r2.city)
    requires SameUpToCase(r1.state, r2.state) && SameUpToCase(r1.zip, r2.zip)
    requires includeUnit && hasUnitCol ==> SameUpToCase(Str(r1.unit), Str(r2.unit))
    ensures GenerateId(hash, r1, includeUnit, hasUnitCol) == GenerateId(hash, r2, includeUnit, hasUnitCol)
  {
    var u1 := if includeUnit && hasUnitCol then Str(r1.unit) else "";
    var u2 := if includeUnit && hasUnitCol then Str(r2.unit) else "";
    LowerConcat(r1.street, r1.city);
    LowerConcat(r1.street + r1.city, r1.state);
    LowerConcat(r1.street + r1.city + r1.state, r1.zip);
    LowerConcat(r1.street + r1.city + r1.state + r1.zip, u1);
    LowerConcat(r2.street, r2.city);
    LowerConcat(r2.street + r2.city, r2.state);
    LowerConcat(r2.street + r2.city + r2.state, r2.zip);
    LowerConcat(r2.street + r2.city + r2.state + r2.zip, u2);
  }

  /**
   * The fields are joined with no separator, so only their concatenation
   * matters: moving characters from one field into the next keeps the id.
   */
  lemma IdIgnoresFieldBoundaries(hash: string -> string, r1: AddressRow, r2: AddressRow, includeUnit: bool, hasUnitCol: bool)
    requires r1.street + r1.city + r1.state + r1.zip == r2.street + r2.city + r2.state + r2.zip
    requires r1.unit == r2.unit
    ensures GenerateId(hash, r1, includeUnit, hasUnitCol) == GenerateId(hash, r2, includeUnit, hasUnitCol)
  {
  }

  /** The two rows ("ab", "c", ...) and ("a", "bc", ...) share their identifier. */
  lemma FieldBoundaryCollision(hash: string -> string, state: string, zip: string, unit: Cell, others: seq<string>)
    ensures GenerateId(hash, AddressRow("ab", "c", state, zip, unit, others), false, false)
         == GenerateId(hash, AddressRow("a", "bc", state, zip, unit, others), false, false)
  {
    assert "ab" + "c" == "a" + "bc";
  }

  /** Without the unit in the hash, rows that differ only in their unit share the identifier. */
  lemma IdIgnoresUnit(hash: string -> string, r1: AddressRow, r2: AddressRow, includeUnit: bool, hasUnitCol: bool)
    requires !includeUnit || !hasUnitCol
    requires r1.street == r2.street && r1.city == r2.city && r1.state == r2.state && r1.zip == r2.zip
    ensures GenerateId(hash, r1, includeUnit, hasUnitCol) == GenerateId(hash, r2, includeUnit, hasUnitCol)
  {
  }

  /** With no unit column configured, the address id equals the building id. */
  lemma AddressIdIsBuildingIdWithoutUnitColumn(hash: string -> string, row: AddressRow)
    ensures GenerateId(hash, row, true, false) == GenerateId(hash, row, false, false)
  {
  }

  /**
   * With a unit column, the address-id key extends the building-id key by the
   * lower-cased unit text, so `address_id` refines `building_id`.
   */
  lemma AddressKeyExtendsBuildingKey(row: AddressRow)
    ensures IdKey(row, true, true) == IdKey(row, false, true) + Lower(Str(row.unit))
  {
    var base := row.street + row.city + row.state + row.zip;
    LowerConcat(base, Str(row.unit));
    assert base + "" == base;
  }
}

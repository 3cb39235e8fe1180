/**
 * The one-row table of named columns the classifier reads
 * (the `pd.DataFrame` built in app.py). A column's value is either text
 * or a number; the classifier finds columns by name.
 */
module Columns {
  import opened Wrappers
  import opened Features

  datatype Cell = Text(text: string) | Number(number: real)

  datatype Column = Column(name: string, cell: Cell)

  type Row = seq<Column>

  /** The column names in the order the record is assembled. */
  const Schema: seq<string> := [
    "PW_SOC_CODE",
    "NAICS_CODE",
    "PW_UNIT_OF_PAY",
    "WAGE_OFFER_UNIT_OF_PAY",
    "MINIMUM_EDUCATION",
    "WORKSITE_STATE",
    "FW_OWNERSHIP_INTEREST",
    "PW_WAGE_ANNUAL",
    "OFFER_WAGE_ANNUAL",
    "WAGE_RATIO"
  ]

  /** No column name occurs twice. */
  predicate DistinctNames(row: Row) {
    forall j, k | 0 <= j < k < |row| :: row[j].name != row[k].name
  }

  /** The value of the first column called `name`, if any. */
  function Lookup(row: Row, name: string): Option<Cell> {
    if |row| == 0 then None
    else if row[0].name == name then Some(row[0].cell)
    else Lookup(row[1..], name)
  }

  /** Lays the record out as a row: seven text columns, then three numbers,
      each under its schema name. */
  function ToRow(f: FeatureVector): (row: Row)
    ensures |row| == |Schema|
    ensures forall i | 0 <= i < |row| :: row[i].name == Schema[i]
    ensures forall i | 0 <= i < 7 :: row[i].cell.Text?
    ensures forall i | 7 <= i < |row| :: row[i].cell.Number?
  {
    [ Column(Schema[0], Text(f.pwSocCode)),
      Column(Schema[1], Text(f.naicsCode)),
      Column(Schema[2], Text(f.pwUnitOfPay)),
      Column(Schema[3], Text(f.wageOfferUnitOfPay)),
      Column(Schema[4], Text(f.minimumEducation)),
      Column(Schema[5], Text(f.worksiteState)),
      Column(Schema[6], Text(f.fwOwnershipInterest)),
      Column(Schema[7], Number(f.pwWageAnnual)),
      Column(Schema[8], Number(f.offerWageAnnual)),
      Column(Schema[9], Number(f.wageRatio)) ]
  }

  function TextAt(row: Row, name: string): Option<string> {
    match Lookup(row, name)
    case Some(Text(s)) => Some(s)
    case _ => None
  }

  function NumberAt(row: Row, name: string): Option<real> {
    match Lookup(row, name)
    case Some(Number(v)) => Some(v)
    case _ => None
  }

  /** Reads a record back from a row by column name, failing when a schema
      column is missing or holds the wrong kind of value. */
  function FromRow(row: Row): Option<FeatureVector> {
    var soc :- TextAt(row, Schema[0]);
    var naics :- TextAt(row, Schema[1]);
    var pwUnit :- TextAt(row, Schema[2]);
    var offerUnit :- TextAt(row, Schema[3]);
    var education :- TextAt(row, Schema[4]);
    var state :- TextAt(row, Schema[5]);
    var ownership :- TextAt(row, Schema[6]);
    var pwAnnual :- NumberAt(row, Schema[7]);
    var offerAnnual :- NumberAt(row, Schema[8]);
    var ratio :- NumberAt(row, Schema[9]);
    Some(FeatureVector(soc, naics, pwUnit, offerUnit, education, state, ownership,
                       pwAnnual, offerAnnual, ratio))
  }

  /** In a row without repeated names, looking up a column's name finds
      that column's value. */
  lemma {:induction false} LookupFinds(row: Row, i: nat)
    requires DistinctNames(row)
    requires i < |row|
    ensures Lookup(row, row[i].name) == Some(row[i].cell)
  {
    if i > 0 {
      assert row[0].name != row[i].name;
      assert row[1..][i - 1] == row[i];
      LookupFinds(row[1..], i - 1);
    }
  }

  /** A name that labels no column is not found. */
  lemma {:induction false} LookupMisses(row: Row, name: string)
    requires forall i | 0 <= i < |row| :: row[i].name != name
    ensures Lookup(row, name) == None
  {
    if |row| > 0 {
      assert forall i | 0 <= i < |row[1..]| :: row[1..][i] == row[i + 1];
      LookupMisses(row[1..], name);
    }
  }

  /** The ten schema names are pairwise different. */
  lemma SchemaDistinct()
    ensures forall j, k | 0 <= j < k < |Schema| :: Schema[j] != Schema[k]
  {
    forall j, k | 0 <= j < k < |Schema|
      ensures Schema[j] != Schema[k]
    {
      assert Schema[j][0] != Schema[k][0] || Schema[j][3] != Schema[k][3]
        || |Schema[j]| != |Schema[k]|;
    }
  }

  /** The row has exactly the schema's ten columns, in order, each name
      once. */
  lemma RowMatchesSchema(f: FeatureVector)
    ensures |ToRow(f)| == 10
    ensures forall i | 0 <= i < 10 :: ToRow(f)[i].name == Schema[i]
    ensures DistinctNames(ToRow(f))
  {
    SchemaDistinct();
  }

  /** Reading the row back by column name recovers the record: nothing is
      added, dropped, reordered or changed on the way into the table. */
  lemma ReadBack(f: FeatureVector)
    ensures FromRow(ToRow(f)) == Some(f)
  {
    var row := ToRow(f);
    RowMatchesSchema(f);
    forall i | 0 <= i < 10
      ensures Lookup(row, Schema[i]) == Some(row[i].cell)
    {
      LookupFinds(row, i);
    }
  }

  /** A row reads back only if it carries every schema column. */
  lemma FromRowNeedsSchema(row: Row)
    requires FromRow(row).Some?
    ensures forall i | 0 <= i < |Schema| :: Lookup(row, Schema[i]).Some?
  {
  }

  /** The derived record's row, column by column: the seven categorical
      inputs verbatim, then the three derived wage figures. */
  lemma DerivedRow(x: CaseInput)
    ensures ToRow(Derive(x)) == [
      Column("PW_SOC_CODE", Text(x.pwSocCode)),
      Column("NAICS_CODE", Text(x.naicsCode)),
      Column("PW_UNIT_OF_PAY", Text(x.pwUnit)),
      Column("WAGE_OFFER_UNIT_OF_PAY", Text(x.wageUnit)),
      Column("MINIMUM_EDUCATION", Text(x.minEducation)),
      Column("WORKSITE_STATE", Text(x.worksiteState)),
      Column("FW_OWNERSHIP_INTEREST", Text(x.ownership)),
      Column("PW_WAGE_ANNUAL", Number(Derive(x).pwWageAnnual)),
      Column("OFFER_WAGE_ANNUAL", Number(Derive(x).offerWageAnnual)),
      Column("WAGE_RATIO", Number(Derive(x).wageRatio)) ]
  {
  }
}

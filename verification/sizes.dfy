/**
 * The size presets: every supported tag panel is reachable under two names,
 * its dimension string ("296x128") and its device shorthand ("2.9w").
 */
module Sizes {
  import opened Wrappers

  /** The preset table, keyed by name, giving (width, height) in pixels. */
  const Table: map<string, (int, int)> := map[
    "152x152" := (152, 152),
    "1.54"    := (152, 152),
    "296x128" := (296, 128),
    "2.9w"    := (296, 128),
    "128x296" := (128, 296),
    "2.9t"    := (128, 296),
    "400x300" := (400, 300),
    "4.2w"    := (400, 300),
    "300x400" := (300, 400),
    "4.2t"    := (300, 400)
  ]

  /** The panels the table describes; "wide" and "tall" are the two mountings of one panel. */
  datatype Preset = Square154 | Wide29 | Tall29 | Wide42 | Tall42

  /** The name that spells a preset's dimensions. */
  function DimName(p: Preset): string {
    match p
    case Square154 => "152x152"
    case Wide29 => "296x128"
    case Tall29 => "128x296"
    case Wide42 => "400x300"
    case Tall42 => "300x400"
  }

  /** The device-class shorthand of a preset: panel diagonal in inches, then w or t. */
  function ShortName(p: Preset): string {
    match p
    case Square154 => "1.54"
    case Wide29 => "2.9w"
    case Tall29 => "2.9t"
    case Wide42 => "4.2w"
    case Tall42 => "4.2t"
  }

  /** The character of a decimal digit. */
  function Digit(d: nat): char
    requires d < 10
  {
    "0123456789"[d]
  }

  /** The decimal spelling of a natural number, most significant digit first. */
  function Decimal(n: nat): (s: string)
    ensures |s| >= 1
    ensures forall k :: 0 <= k < |s| ==> '0' <= s[k] <= '9'
    decreases n
  {
    if n < 10 then [Digit(n)] else Decimal(n / 10) + [Digit(n % 10)]
  }

  /** The spellings of the numbers that occur in the table. */
  lemma DecimalsOfTable()
    ensures Decimal(128) == "128" && Decimal(152) == "152" && Decimal(296) == "296"
    ensures Decimal(300) == "300" && Decimal(400) == "400"
  {
    assert Decimal(12) == "12";
    assert Decimal(15) == "15";
    assert Decimal(29) == "29";
    assert Decimal(30) == "30";
    assert Decimal(40) == "40";
  }

  /** The dimensions the table gives a preset, under its dimension-string name. */
  function Dims(p: Preset): (d: (int, int))
    ensures DimName(p) in Table && d == Table[DimName(p)]
  {
    Table[DimName(p)]
  }

  /**
   * Both names of a preset are in the table and give the same, positive,
   * dimensions.
   */
  lemma TableAliases(p: Preset)
    ensures ShortName(p) in Table && Table[ShortName(p)] == Dims(p)
    ensures Dims(p).0 > 0 && Dims(p).1 > 0
  {
  }

  /** The dimension-string name of a preset spells its dimensions as "<width>x<height>". */
  lemma {:induction false} DimNameSpellsDims(p: Preset)
    ensures DimName(p) == Decimal(Dims(p).0) + "x" + Decimal(Dims(p).1)
  {
    DecimalsOfTable();
    match p
    case Square154 => assert Dims(p) == (152, 152);
    case Wide29 => assert Dims(p) == (296, 128);
    case Tall29 => assert Dims(p) == (128, 296);
    case Wide42 => assert Dims(p) == (400, 300);
    case Tall42 => assert Dims(p) == (300, 400);
  }

  /** Every key of the table is one of the two names of some preset. */
  lemma TableKeys()
    ensures forall name :: name in Table <==> exists p: Preset :: name == DimName(p) || name == ShortName(p)
  {
    forall name | name in Table
      ensures exists p: Preset :: name == DimName(p) || name == ShortName(p)
    {
      if name == "152x152" || name == "1.54" {
        assert name == DimName(Square154) || name == ShortName(Square154);
      } else if name == "296x128" || name == "2.9w" {
        assert name == DimName(Wide29) || name == ShortName(Wide29);
      } else if name == "128x296" || name == "2.9t" {
        assert name == DimName(Tall29) || name == ShortName(Tall29);
      } else if name == "400x300" || name == "4.2w" {
        assert name == DimName(Wide42) || name == ShortName(Wide42);
      } else {
        assert name == DimName(Tall42) || name == ShortName(Tall42);
      }
    }
  }

  /** The tall mounting of a panel is its wide mounting with width and height exchanged. */
  lemma TallIsTransposedWide()
    ensures Dims(Tall29) == (Dims(Wide29).1, Dims(Wide29).0)
    ensures Dims(Tall42) == (Dims(Wide42).1, Dims(Wide42).0)
  {
  }

  /**
   * The dimensions a size name selects, or None for a name outside the table
   * (which the command line never lets through). A preset's either name
   * selects that preset's dimensions.
   */
  function Lookup(name: string): (d: Option<(int, int)>)
    ensures d.Some? <==> name in Table
    ensures d.Some? <==> exists p: Preset :: name == DimName(p) || name == ShortName(p)
    ensures forall p: Preset :: name == DimName(p) || name == ShortName(p) ==> d == Some(Dims(p))
    ensures d.Some? ==> d.value == Table[name] && d.value.0 > 0 && d.value.1 > 0
  {
    TableKeys();
    if name in Table then
      var p :| name == DimName(p) || name == ShortName(p);
      TableAliases(p);
      Some(Table[name])
    else None
  }
}

/**
 * The records of `game/models.py` that the bot's logic touches: the ability
 * scores and fields of a Character, the fields of an Item with its bulk
 * codec (`bulk_txt`, `txt_to_bulk`), and `InventoryEntry.total_bulk_txt`.
 * Rows of the database are objects updated in place, so Item and Character
 * are classes; `Entity` is an immutable snapshot of any describable record,
 * which is what the card renderer reads.
 */
module Models {
  import opened Wrappers
  import opened Decimal

  /** Default of every ability-score column of Character. */
  const DefaultScore := 10
  /** Default of `Item.bulk`; also the least value its validator admits. */
  const NoBulk := -1
  /** Bulk 0 is a "light" item. */
  const LightBulk := 0

  /** The six ability scores; `Id` is the column name the bot uses as a component id. */
  datatype Stat = Strength | Dexterity | Constitution | Intelligence | Wisdom | Charisma {
    function Id(): string {
      match this
      case Strength => "strength"
      case Dexterity => "dexterity"
      case Constitution => "constitution"
      case Intelligence => "intelligence"
      case Wisdom => "wisdom"
      case Charisma => "charisma"
    }
  }

  datatype AbilityScores = AbilityScores(strength: int, dexterity: int, constitution: int,
                                         intelligence: int, wisdom: int, charisma: int)
  {
    function Get(s: Stat): int {
      match s
      case Strength => strength
      case Dexterity => dexterity
      case Constitution => constitution
      case Intelligence => intelligence
      case Wisdom => wisdom
      case Charisma => charisma
    }

    /** The scores after setting the column named by `s` to `v`. */
    function With(s: Stat, v: int): (r: AbilityScores)
      ensures r.Get(s) == v
      ensures forall t :: t != s ==> r.Get(t) == Get(t)
    {
      match s
      case Strength => this.(strength := v)
      case Dexterity => this.(dexterity := v)
      case Constitution => this.(constitution := v)
      case Intelligence => this.(intelligence := v)
      case Wisdom => this.(wisdom := v)
      case Charisma => this.(charisma := v)
    }
  }

  /**
   * A snapshot of one describable record, one variant per model class, each
   * carrying the fields that class declares and the renderer reads.
   * `className` is the name of the Character's `character_class`, if any.
   */
  datatype Entity =
    | CharacterRecord(name: string, description: string, imageUrl: Option<string>,
                      level: int, className: Option<string>, scores: AbilityScores)
    | ItemRecord(name: string, description: string, imageUrl: Option<string>,
                 level: int, effect: Option<string>, bulk: int)
    | FeatRecord(name: string, description: string, imageUrl: Option<string>,
                 level: int, effect: Option<string>)
    | SpellRecord(name: string, description: string, imageUrl: Option<string>,
                  level: int, effect: Option<string>)
    | ActionRecord(name: string, description: string, imageUrl: Option<string>, effect: Option<string>)
    | AncestryRecord(name: string, description: string, imageUrl: Option<string>, effect: Option<string>)
    | BackgroundRecord(name: string, description: string, imageUrl: Option<string>, effect: Option<string>)
    | HeritageRecord(name: string, description: string, imageUrl: Option<string>, effect: Option<string>)
    | TagRecord(name: string, description: string, imageUrl: Option<string>)
    | ClassRecord(name: string, description: string, imageUrl: Option<string>)
  {
    /** The Python class name of the record. */
    function TypeName(): string {
      match this
      case CharacterRecord(_, _, _, _, _, _) => "Character"
      case ItemRecord(_, _, _, _, _, _) => "Item"
      case FeatRecord(_, _, _, _, _) => "Feat"
      case SpellRecord(_, _, _, _, _) => "Spell"
      case ActionRecord(_, _, _, _) => "Action"
      case AncestryRecord(_, _, _, _) => "Ancestry"
      case BackgroundRecord(_, _, _, _) => "Background"
      case HeritageRecord(_, _, _, _) => "Heritage"
      case TagRecord(_, _, _) => "Tag"
      case ClassRecord(_, _, _) => "Class"
    }

    /** The classes that declare a `level` column. */
    predicate HasLevel() {
      CharacterRecord? || ItemRecord? || FeatRecord? || SpellRecord?
    }

    /** The classes that inherit the `effect` column. */
    predicate HasEffect() {
      !(CharacterRecord? || TagRecord? || ClassRecord?)
    }
  }

  predicate StartsWithDash(value: string) {
    value != [] && value[0] == '-'
  }

  /** `value.upper().startswith('L')`: only `l` and `L` upper-case to `L`. */
  predicate StartsWithL(value: string) {
    value != [] && (value[0] == 'l' || value[0] == 'L')
  }

  /** `Item.bulk_txt`: the text shown for a bulk value. */
  function BulkTxt(bulk: int): string {
    if bulk == NoBulk then "-"
    else if bulk == LightBulk then "L"
    else IntToString(bulk)
  }

  /**
   * The value `Item.txt_to_bulk` stores for `value`, or `None` where the
   * method raises `ValueError`.
   */
  function DecodeBulk(value: string): (r: Option<int>)
    ensures r.Some? ==> r.value >= NoBulk
  {
    if StartsWithDash(value) then Some(NoBulk)
    else if StartsWithL(value) then Some(LightBulk)
    else
      match ParseInt(value)
      case None => None
      case Some(n) => Some(if n < 0 then NoBulk else n)
  }

  /** `InventoryEntry.total_bulk_txt`: the bulk of `quantity` items of bulk `bulk`. */
  function TotalBulkTxt(bulk: int, quantity: nat): string {
    if bulk == NoBulk then "-"
    else if bulk == LightBulk then NatToString(quantity / 10) + " " + NatToString(quantity % 10) + "L"
    else IntToString(quantity * bulk)
  }

  /** An Item row being created or edited. */
  class Item {
    var name: string
    var description: string
    var imageUrl: Option<string>
    var effect: Option<string>
    var bulk: int
    var level: int

    /** `Item()`: the column defaults. */
    constructor ()
      ensures name == "" && description == "" && imageUrl == None && effect == None
      ensures bulk == NoBulk && level == 0
    {
      name, description, imageUrl, effect := "", "", None, None;
      bulk, level := NoBulk, 0;
    }

    function Snapshot(): (e: Entity)
      reads this
      ensures e.ItemRecord? && e.bulk == bulk && e.name == name
    {
      ItemRecord(name, description, imageUrl, level, effect, bulk)
    }

    /**
     * `txt_to_bulk`: stores the decoded value and returns true, or returns
     * false (the `ValueError`) and leaves `bulk` as it was.
     */
    method TxtToBulk(value: string) returns (ok: bool)
      modifies this`bulk
      ensures ok == DecodeBulk(value).Some?
      ensures bulk == if ok then DecodeBulk(value).value else old(bulk)
    {
      ok := true;
      if StartsWithDash(value) {
        bulk := NoBulk;
      } else if StartsWithL(value) {
        bulk := LightBulk;
      } else {
        var preBulk := ParseInt(value);
        if preBulk.None? {
          ok := false;
          return;
        }
        if preBulk.value < 0 {
          bulk := NoBulk;
        } else {
          bulk := preBulk.value;
        }
      }
    }
  }

  /** A Character row being created or edited. */
  class Character {
    var name: string
    var description: string
    var imageUrl: Option<string>
    var discordId: int
    var strength: int
    var dexterity: int
    var constitution: int
    var intelligence: int
    var wisdom: int
    var charisma: int
    var level: int
    var className: Option<string>

    /** `Character()`: the column defaults. */
    constructor ()
      ensures name == "" && description == "" && imageUrl == None && className == None
      ensures discordId == 0 && level == 1
      ensures Scores() == AbilityScores(DefaultScore, DefaultScore, DefaultScore, DefaultScore, DefaultScore, DefaultScore)
    {
      name, description, imageUrl, className := "", "", None, None;
      discordId, level := 0, 1;
      strength, dexterity, constitution := DefaultScore, DefaultScore, DefaultScore;
      intelligence, wisdom, charisma := DefaultScore, DefaultScore, DefaultScore;
    }

    function Scores(): AbilityScores
      reads this`strength, this`dexterity, this`constitution, this`intelligence, this`wisdom, this`charisma
    {
      AbilityScores(strength, dexterity, constitution, intelligence, wisdom, charisma)
    }

    function Snapshot(): (e: Entity)
      reads this
      ensures e.CharacterRecord? && e.scores == Scores() && e.className == className
    {
      CharacterRecord(name, description, imageUrl, level, className, Scores())
    }

    /** `character.__setattr__(stat_id, value)` for one ability-score column. */
    method SetStat(s: Stat, value: int)
      modifies this`strength, this`dexterity, this`constitution,
               this`intelligence, this`wisdom, this`charisma
      ensures Scores() == old(Scores()).With(s, value)
    {
      match s
      case Strength => strength := value;
      case Dexterity => dexterity := value;
      case Constitution => constitution := value;
      case Intelligence => intelligence := value;
      case Wisdom => wisdom := value;
      case Charisma => charisma := value;
    }
  }

  /** The text `bulk_txt` writes for a positive bulk is a plain decimal number. */
  lemma CountedBulkText(bulk: int)
    requires bulk > 0
    ensures !StartsWithDash(BulkTxt(bulk)) && !StartsWithL(BulkTxt(bulk))
    ensures ParseInt(BulkTxt(bulk)) == Some(bulk)
  {
    IntToStringRoundTrip(bulk);
  }

  /** Every bulk the validator admits survives `bulk_txt` followed by `txt_to_bulk`. */
  lemma BulkRoundTrip(bulk: int)
    requires bulk >= NoBulk
    ensures DecodeBulk(BulkTxt(bulk)) == Some(bulk)
  {
    if bulk > 0 {
      CountedBulkText(bulk);
    }
  }

  /** Below the validator's minimum the text reads back as "no bulk". */
  lemma BulkBelowRangeCollapses(bulk: int)
    requires bulk < NoBulk
    ensures DecodeBulk(BulkTxt(bulk)) == Some(NoBulk)
  {
  }

  /** Different bulks are shown as different texts. */
  lemma BulkTxtInjective(b1: int, b2: int)
    requires BulkTxt(b1) == BulkTxt(b2)
    ensures b1 == b2
  {
    NumberTextIsNotMarker(b1);
    NumberTextIsNotMarker(b2);
    if b1 != NoBulk && b1 != LightBulk && b2 != NoBulk && b2 != LightBulk {
      IntToStringInjective(b1, b2);
    }
  }

  /** The text of a number is never the "-" or "L" marker. */
  lemma NumberTextIsNotMarker(n: int)
    ensures IntToString(n) != "-" && IntToString(n) != "L"
  {
    if n < 0 {
      assert |IntToString(n)| == 1 + |NatToString(-n)|;
    } else {
      assert IsDigit(IntToString(n)[0]);
    }
  }

  /**
   * Whatever text a user types, the stored value re-rendered by `bulk_txt`
   * decodes to the same value: `bulk_txt` gives the canonical spelling.
   */
  lemma DecodeBulkCanonical(value: string)
    requires DecodeBulk(value).Some?
    ensures DecodeBulk(BulkTxt(DecodeBulk(value).value)) == DecodeBulk(value)
  {
    BulkRoundTrip(DecodeBulk(value).value);
  }

  /**
   * How `txt_to_bulk` reads a prefix: a leading `-` always means no bulk
   * (even in "-5"), and a leading `l` or `L` means light.
   */
  lemma DecodeBulkPrefixes(rest: string)
    ensures DecodeBulk("-" + rest) == Some(NoBulk)
    ensures DecodeBulk("l" + rest) == Some(LightBulk) && DecodeBulk("L" + rest) == Some(LightBulk)
  {
  }

  /**
   * Any other number is stored as it reads, with negatives clamped to no
   * bulk; a negative number only gets this far behind white space.
   */
  lemma DecodeBulkNumber(n: int)
    ensures DecodeBulk(IntToString(n)) == Some(if n < 0 then NoBulk else n)
    ensures DecodeBulk(" " + IntToString(n)) == Some(if n < 0 then NoBulk else n)
  {
    IntToStringRoundTrip(n);
    ParseIntLeadingSpace(IntToString(n));
  }

  /** Light items are shown as tens and units: the text still determines the quantity. */
  lemma {:induction false} LightTotalDecodes(quantity: nat)
    ensures var t := TotalBulkTxt(LightBulk, quantity);
            && |t| >= 4 && t[|t| - 1] == 'L' && t[|t| - 3] == ' '
            && AllDigits(t[..|t| - 3]) && IsDigit(t[|t| - 2])
            && 10 * DigitsValue(t[..|t| - 3]) + DigitValue(t[|t| - 2]) == quantity
  {
    var t := TotalBulkTxt(LightBulk, quantity);
    var tens := NatToString(quantity / 10);
    assert t == tens + " " + [DigitChar(quantity % 10)] + "L";
    assert t[..|t| - 3] == tens;
    NatToStringValue(quantity / 10);
  }

  /** A counted (or out-of-range) bulk total reads back as `quantity * bulk`. */
  lemma CountedTotalValue(bulk: int, quantity: nat)
    requires bulk != NoBulk && bulk != LightBulk
    ensures ParseInt(TotalBulkTxt(bulk, quantity)) == Some(quantity * bulk)
  {
    IntToStringRoundTrip(quantity * bulk);
  }

  /** One item of any bulk other than light totals to its own `bulk_txt`. */
  lemma SingleTotalIsBulkTxt(bulk: int)
    requires bulk != LightBulk
    ensures TotalBulkTxt(bulk, 1) == BulkTxt(bulk)
  {
  }
}

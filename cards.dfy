/**
 * The presentation side of `bot.py`: the ability modifier, the type label of
 * a card (`entity_type_name`), the card itself (`to_embed`) and the
 * name/description form (`name_description_modal`). All are pure: each
 * builds a fresh value from a snapshot. Translation through `gettext` is
 * the identity here.
 */
module Cards {
  import opened Wrappers
  import opened Decimal
  import opened Models

  /** The ability modifier, `(score - 10) // 2`: Python's floor division. */
  function Modifier(score: int): (m: int)
    ensures 2 * m <= score - 10 < 2 * m + 2
  {
    (score - 10) / 2
  }

  /** A higher score never has a lower modifier. */
  lemma ModifierMonotone(a: int, b: int)
    requires a <= b
    ensures Modifier(a) <= Modifier(b)
  {
  }

  /** `entity_type_name`: the first field's label on a card. */
  function EntityTypeName(e: Entity): string {
    if e.CharacterRecord? && e.className.Some? then e.className.value
    else if e.HasLevel() then e.TypeName() + " " + IntToString(e.level)
    else e.TypeName()
  }

  /**
   * A character with a class is labelled by the class alone; any other
   * record with a level is labelled "<type> <level>", and the level can be
   * read back from the label; the rest are labelled by their type.
   */
  lemma TypeLabel(e: Entity)
    ensures e.CharacterRecord? && e.className.Some? ==> EntityTypeName(e) == e.className.value
    ensures !(e.CharacterRecord? && e.className.Some?) && e.HasLevel() ==>
      (var shown := EntityTypeName(e); var prefix := e.TypeName() + " ";
       |prefix| < |shown| && shown[..|prefix|] == prefix && ParseInt(shown[|prefix|..]) == Some(e.level))
    ensures !(e.CharacterRecord? && e.className.Some?) && !e.HasLevel() ==> EntityTypeName(e) == e.TypeName()
  {
    if !(e.CharacterRecord? && e.className.Some?) && e.HasLevel() {
      var prefix := e.TypeName() + " ";
      assert EntityTypeName(e)[|prefix|..] == IntToString(e.level);
      IntToStringRoundTrip(e.level);
    }
  }

  function StatLabel(s: Stat): string {
    match s
    case Strength => "Сила"
    case Dexterity => "Ловкость"
    case Constitution => "Телосложение"
    case Intelligence => "Интеллект"
    case Wisdom => "Мудрость"
    case Charisma => "Харизма"
  }

  /** One line of the stats block: "<label>: <score> (<modifier>)". */
  function StatLine(s: Stat, score: int): string {
    StatLabel(s) + ": " + IntToString(score) + " (" + IntToString(Modifier(score)) + ")"
  }

  /** The stats block of a character card: six lines in the order of the rules. */
  function StatsBlock(scores: AbilityScores): string {
    StatLine(Strength, scores.strength) + "\n" +
    StatLine(Dexterity, scores.dexterity) + "\n" +
    StatLine(Constitution, scores.constitution) + "\n" +
    StatLine(Intelligence, scores.intelligence) + "\n" +
    StatLine(Wisdom, scores.wisdom) + "\n" +
    StatLine(Charisma, scores.charisma)
  }

  const DescriptionLabel := "Описание"
  const StatsLabel := "Характеристики"
  const BulkLabel := "Масса"
  const EffectLabel := "Эффект"

  /** A labelled field of a card; Python's `None` is a missing value. */
  datatype EmbedField = EmbedField(name: string, value: Option<string>)

  datatype Embed = Embed(title: string, fields: seq<EmbedField>, image: Option<string>)

  /** `to_embed`: the card of a record, built field by field. */
  function ToEmbed(e: Entity): (card: Embed)
    ensures card.title == e.name
    ensures card.image.Some? <==> e.imageUrl.Some? && e.imageUrl.value != ""
    ensures card.image.Some? ==> card.image == e.imageUrl
    ensures |card.fields| >= 2
    ensures card.fields[0] == EmbedField(EntityTypeName(e), Some(" "))
    ensures card.fields[1] == EmbedField(DescriptionLabel, Some(e.description))
    ensures e.CharacterRecord? ==>
      card.fields[2..] == [EmbedField(StatsLabel, Some(StatsBlock(e.scores)))]
    ensures e.ItemRecord? ==>
      card.fields[2..] == [EmbedField(BulkLabel, Some(BulkTxt(e.bulk))), EmbedField(EffectLabel, e.effect)]
    ensures !e.CharacterRecord? && !e.ItemRecord? && e.HasEffect() ==>
      card.fields[2..] == [EmbedField(EffectLabel, e.effect)]
    ensures !e.HasEffect() && !e.CharacterRecord? ==> |card.fields| == 2
  {
    var base := [EmbedField(EntityTypeName(e), Some(" ")), EmbedField(DescriptionLabel, Some(e.description))];
    var image := if e.imageUrl.Some? && e.imageUrl.value != "" then e.imageUrl else None;
    var withStats := if e.CharacterRecord? then base + [EmbedField(StatsLabel, Some(StatsBlock(e.scores)))] else base;
    var withBulk := if e.ItemRecord? then withStats + [EmbedField(BulkLabel, Some(BulkTxt(e.bulk)))] else withStats;
    var withEffect := if e.HasEffect() then withBulk + [EmbedField(EffectLabel, e.effect)] else withBulk;
    Embed(e.name, withEffect, image)
  }

  /** The bulk an item card shows decodes back to the item's bulk. */
  lemma ItemCardShowsBulk(e: Entity)
    requires e.ItemRecord? && e.bulk >= NoBulk
    ensures var shown := ToEmbed(e).fields[2];
            shown.name == BulkLabel && shown.value.Some? && DecodeBulk(shown.value.value) == Some(e.bulk)
  {
    BulkRoundTrip(e.bulk);
  }

  datatype TextStyle = ShortText | ParagraphText

  /** One input of a form: its style, caption, id, length cap and prefilled text. */
  datatype FormField = FormField(style: TextStyle, caption: string, customId: string,
                                 maxLength: Option<nat>, value: Option<string>)

  datatype Modal = Modal(title: string, fields: seq<FormField>)

  function FieldIds(fields: seq<FormField>): (ids: seq<string>)
    ensures |ids| == |fields|
    ensures forall i :: 0 <= i < |fields| ==> ids[i] == fields[i].customId
  {
    seq(|fields|, i requires 0 <= i < |fields| => fields[i].customId)
  }

  /** `defaults.get(key, None)`. */
  function Lookup(defaults: map<string, string>, key: string): Option<string> {
    if key in defaults then Some(defaults[key]) else None
  }

  /**
   * `name_description_modal`: the name and description inputs, then a level
   * input when `leveled`, then an effect input when `effectable`; each input
   * is prefilled from `defaults` by its id.
   */
  function NameDescriptionModal(title: string, leveled: bool := true, effectable: bool := false,
                                defaults: map<string, string> := map[]): (m: Modal)
    ensures m.title == title
    ensures FieldIds(m.fields) ==
      ["name", "description"] + (if leveled then ["level"] else []) + (if effectable then ["effect"] else [])
    ensures forall i :: 0 <= i < |m.fields| ==> m.fields[i].value == Lookup(defaults, m.fields[i].customId)
  {
    var components :=
      [FormField(ShortText, "Имя", "name", Some(256), Lookup(defaults, "name")),
       FormField(ParagraphText, "Описание", "description", Some(2000), Lookup(defaults, "description"))];
    var withLevel :=
      if leveled then components + [FormField(ShortText, "Уровень", "level", None, Lookup(defaults, "level"))]
      else components;
    var withEffect :=
      if effectable then withLevel + [FormField(ShortText, "Эффект", "effect", None, Lookup(defaults, "effect"))]
      else withLevel;
    Modal(title, withEffect)
  }
}

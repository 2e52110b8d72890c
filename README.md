# underkingBot core in Dafny

underkingBot is a Discord bot for a tabletop role-playing game. Players
create and edit characters and items through forms and menus, and they view
them as cards ("embeds"). This project models the core of the bot:

- `game/models.py`: the Item and Character rows, with their column defaults.
  It covers how an item's bulk is shown (`bulk_txt`) and read back from text
  (`txt_to_bulk`), and how an inventory entry shows its total bulk
  (`total_bulk_txt`).
- `bot.py`, the pure functions:
  - the card of a record (`to_embed`), with the ability modifier
    `(score - 10) // 2`;
  - the card's type label (`entity_type_name`);
  - the name/description form (`name_description_modal`).
- `bot.py`, the create/edit dialogues (`modify_or_create_item`,
  `modify_or_create_character`):
  - the option menus they offer (scores `6, 8, …, 20, 21, 22` and bulks
    `-`, `L`, `1` … `20`);
  - the two ability-score selection loops, which write each chosen score
    into the character being built.

Files:

- `wrappers.dfy`: `Option`.
- `decimal.dfy`: Python's `str()` and `int()` on integers. `int()` failing
  with `ValueError` is `None`.
- `models.dfy`:
  - `Item` and `Character` as classes whose methods update their fields;
  - `Entity`, an immutable snapshot of any record that the cards are built
    from;
  - the bulk text functions.
- `cards.dfy`: cards and forms, as pure functions.
- `wizard.dfy`: the menus, the selection stages (a pure `Stage` function and
  the `RunStage` loop proved against it), and the two dialogues as methods
  on the records.

Some parts of the bot are inputs here:

- the chat channel;
- the form's answers, as a map from field id to text;
- the menu picks and button presses, as a finite sequence of events.

Running out of events means the bot is still waiting.

## Model

| member | source | states |
|---|---|---|
| Decimal.IntToStringRoundTrip | bot.py:85-97 | `int(str(i)) == i` for every integer, so a number the bot writes into a form or menu reads back unchanged |
| Decimal.IntToStringInjective | game/models.py:79-80 | `str` never gives two integers the same text |
| Decimal.ParseIntLeadingSpace | game/models.py:88 | white space in front of a number does not change what `int()` reads |
| Models.AbilityScores.With | bot.py:187 | setting one stat gives it the new value and leaves the other five as they were |
| Models.Character.constructor | game/models.py:35-51 | a new character has all six ability scores at 10, level 1, discord id 0, no class |
| Models.Character.SetStat | bot.py:187 | `__setattr__` of one stat column changes that stat only |
| Models.Item.constructor | game/models.py:69-71 | a new item has bulk -1 (no bulk) and level 0 |
| Models.DecodeBulk | game/models.py:82-92 | whatever `txt_to_bulk` stores is never below -1, the validator's minimum |
| Models.Item.TxtToBulk | game/models.py:82-92 | succeeds exactly when the text decodes, stores the decoded bulk, and leaves bulk unchanged on `ValueError` |
| Models.DecodeBulkPrefixes | game/models.py:83-86 | a leading `-` means no bulk (even in `-5`); a leading `l` or `L` means light |
| Models.DecodeBulkNumber | game/models.py:87-92 | any other number is stored as read; negatives, which get through only behind white space, are clamped to -1 |
| Models.CountedBulkText | game/models.py:79-80 | the text of a positive bulk is a plain number that `int()` reads back |
| Models.BulkRoundTrip | game/models.py:73-92 | `txt_to_bulk(bulk_txt)` restores every bulk of at least -1 |
| Models.BulkBelowRangeCollapses | game/models.py:73-92 | a bulk below -1 reads back as no bulk |
| Models.BulkTxtInjective | game/models.py:73-80 | distinct bulks, of any value, are shown as distinct texts |
| Models.DecodeBulkCanonical | game/models.py:73-92 | re-rendering a decoded bulk and decoding again gives the same value |
| Models.LightTotalDecodes | game/models.py:103-104 | the total of light items is "tens units L", and those digits determine the quantity |
| Models.CountedTotalValue | game/models.py:105-106 | the total of counted items reads back as quantity times bulk |
| Models.SingleTotalIsBulkTxt | game/models.py:100-106 | one item of any bulk other than light totals to its own `bulk_txt` |
| Cards.Modifier | bot.py:300-305 | the modifier is the floor of half of score minus 10 |
| Cards.ModifierMonotone | bot.py:300-305 | a higher score never has a lower modifier |
| Cards.TypeLabel | bot.py:314-320 | a character with a class is labelled by the class; another record with a level is labelled "Type level" and the level reads back from it; the rest are labelled by type |
| Cards.ToEmbed | bot.py:290-311 | title is the name; image iff a non-empty URL; fields are type label, description, then stats for characters, bulk and effect for items, effect for other effecting records, nothing more for tags and classes |
| Cards.ItemCardShowsBulk | bot.py:307-308 | the bulk an item card shows decodes back to the item's bulk |
| Cards.NameDescriptionModal | bot.py:276-287 | inputs are name and description, then level if leveled, then effect if effectable, each prefilled from the defaults by its id |
| Wizard.RangeMeaning | bot.py:168 | `Range` is Python's `range`: starts at lo, steps by step, stays below hi, stops only where the next step reaches hi |
| Wizard.StatMenu | bot.py:168-170 | the stat menu offers exactly 6, 8, …, 20, 21, 22, and each option reads back as its score |
| Wizard.StatOptionParses | bot.py:170-187 | any value picked from a stat menu is a number `int()` accepts, between 6 and 22 |
| Wizard.BulkMenu | bot.py:99-107 | the bulk menu has 22 options and the k-th decodes to k - 1 |
| Wizard.BulkMenuRange | bot.py:99-107 | any bulk the menu can set lies between -1 and 20 |
| Wizard.Stage | bot.py:175-189 | a finished stage hands on a proper suffix of its events |
| Wizard.StageStopsAtFirstNext | bot.py:178-185 | a finished stage stopped at the first "next" |
| Wizard.StageWaitingSawNoNext | bot.py:176-182 | a stage still waiting has seen no "next" |
| Wizard.StageLastWriteWins | bot.py:184-187 | each stat ends with its last selection before "next"; a stat never selected keeps its value |
| Wizard.StageIgnoresLaterEvents | bot.py:178-189 | events after the first "next" do not affect the stage |
| Wizard.StageConfined | bot.py:166-187 | a stage changes only the stats its events select |
| Wizard.StageMenuNeverFails | bot.py:168-187 | selections from the menus never make `int()` fail |
| Wizard.StageUpToNext | bot.py:175-189 | selections then "next" end the stage exactly at that "next" |
| Wizard.ScreenResult | bot.py:175-189 | one screen of selections ends at its "next", with each stat set by its last selection |
| Wizard.BothScreensFinish | bot.py:175-213 | two screens of selections each end at their own "next", and the dialogue completes |
| Wizard.TwoScreens | bot.py:166-213 | strength, dexterity and constitution take their last pick on the first screen; intelligence, wisdom and charisma on the second |
| Wizard.RunStage | bot.py:175-189 | the loop returns what `Stage` computes and leaves the character's scores equal to the stage's |
| Wizard.RunScreens | bot.py:175-213 | both loops in turn compute `StatScreens` and write its scores into the character |
| Wizard.ItemFormReadsBack | bot.py:81-87 | the item form asks for exactly the fields the dialogue reads; an edit form's prefilled level reads back as the stored level |
| Wizard.CharacterFormReadsBack | bot.py:148-153 | the same for the character form, which has no effect input |
| Wizard.ModifyOrCreateItem | bot.py:80-114 | copies image, name and description; a bad level gives the "must be a number" notice; otherwise sets level and effect and decodes the bulk pick, calling `save` or giving the notice; after `save` the card's bulk field decodes to the stored bulk |
| Wizard.ApplyCharacterForm | bot.py:157-165 | copies image, author id, name and description, and sets the level when `int()` accepts it |
| Wizard.ModifyOrCreateCharacter | bot.py:147-219 | after the form, the scores are those of both selection screens and the outcome is `save` called, the notice or still waiting, as `StatScreens` ends; after `save` the card shows the final scores |

## Left out

- Discord I/O is not modelled: sending forms and cards, waiting for them,
  `edit_origin`, `print` of the caught exception. The form's answers and the
  component events are parameters.
- Database access is not modelled: `save`, `objects.get` and the
  autocomplete queries (`vc_autocomplete`, `vi_autocomplete`). The lookup in
  the edit commands becomes the optional existing record passed to the form
  functions.
- The `/roll` command calls the external `dice` library and is not modelled.
  The slash-command plumbing (`create`, `edit`, `view` and their
  subcommands) only forwards to the modelled functions. The
  `launchbot` management command is not part of this model.
- `gettext` is the identity, so `bulk_txt` shows a plain hyphen-minus `-`
  and `L`, as the code writes them.
- Python's `int()` is modelled on ASCII only: white space, an optional sign
  and digits. It leaves out underscores between digits (`1_0`), non-ASCII
  digits and non-ASCII white space. `str.upper` is taken to produce a
  leading `L` only from `l` and `L`.
- The Django validators are not enforced on the records: name length,
  `MinValueValidator(-1)` on bulk, level between 1 and 20. The lemmas assume
  the bulk minimum where they need it.
- Character fields that the core never reads or writes are not modelled:
  ancestry, background, heritage, inventory, equipment, feats, spells, hit
  points, focus and hero points. The class is modelled by its name only.
  Tags and class features are left out.
- The bot waits forever for the next component event. The model represents
  this as running out of events, and the dialogue then ends unsaved.
- Ability scores and the `level` of both records are unbounded integers.
  They are `PositiveIntegerField` columns, so a negative value fails the
  column check inside `save` with an error that `except ValueError` does
  not catch. A negative level passes `int()`, and the model still ends the
  dialogue with `SaveCalled`: it means that `save` is called, not that the
  row is stored.

/** The spicy-level selector of a menu item card: four buttons, from "no
    chili" to three chilies, the selected one highlighted. */
module SpicySelector {

  /** One entry of `SPICY_LEVELS`: the level, its emoji and the key of its
      label in the customer translation table. */
  datatype SpicyLevel = SpicyLevel(level: int, emoji: string, key: string)

  const Cross: string := "\U{274C}"
  /** The chili pepper emoji with its emoji presentation selector. */
  const Chili: string := "\U{1F336}\U{FE0F}"

  const Levels: seq<SpicyLevel> := [
    SpicyLevel(0, Cross, "noSpicy"),
    SpicyLevel(1, Chili, "mild"),
    SpicyLevel(2, Chili + Chili, "medium"),
    SpicyLevel(3, Chili + Chili + Chili, "hot")
  ]

  /** `k` chilies in a row. */
  function Chilies(k: nat): string
  {
    if k == 0 then "" else Chilies(k - 1) + Chili
  }

  /** The table lists levels 0 to 3 in order, one button each; the emoji of
      a level above 0 is that many chilies, and level 0 is the cross. */
  lemma LevelsTable()
    ensures |Levels| == 4
    ensures forall i :: 0 <= i < |Levels| ==> Levels[i].level == i
    ensures Levels[0].emoji == Cross
    ensures forall i :: 1 <= i < |Levels| ==> Levels[i].emoji == Chilies(i)
  {
    assert Chilies(1) == Chili;
    assert Chilies(2) == Chili + Chili;
    assert Chilies(3) == Chili + Chili + Chili;
  }

  /** A rendered button: its level and whether it is highlighted. */
  datatype Button = Button(level: int, emoji: string, key: string, highlighted: bool)

  /** `SPICY_LEVELS.map(...)` with the current `value`. */
  function Buttons(value: int): (r: seq<Button>)
    ensures |r| == |Levels|
    ensures forall i :: 0 <= i < |r| ==> r[i].level == Levels[i].level && r[i].emoji == Levels[i].emoji
    ensures forall i :: 0 <= i < |r| ==> (r[i].highlighted <==> value == Levels[i].level)
  {
    seq(|Levels|, i requires 0 <= i < |Levels| =>
      Button(Levels[i].level, Levels[i].emoji, Levels[i].key, value == Levels[i].level))
  }

  /** `onClick={() => onChange(level)}`: the value a click reports. */
  function Clicked(value: int, i: int): (v: int)
    requires 0 <= i < |Levels|
    ensures 0 <= v <= 3
  {
    Buttons(value)[i].level
  }

  /** At most one button is highlighted, and exactly one when the value is a
      level of the table; clicking a button highlights that button alone. */
  lemma {:induction false} OneHighlight(value: int)
    ensures forall i, j :: 0 <= i < j < |Buttons(value)| ==> !(Buttons(value)[i].highlighted && Buttons(value)[j].highlighted)
    ensures (exists i :: 0 <= i < |Buttons(value)| && Buttons(value)[i].highlighted) <==> 0 <= value <= 3
    ensures forall i :: 0 <= i < |Levels| ==>
      forall j :: 0 <= j < |Levels| ==> (Buttons(Clicked(value, i))[j].highlighted <==> j == i)
  {
    LevelsTable();
    if 0 <= value <= 3 {
      assert Buttons(value)[value].highlighted;
    }
  }
}

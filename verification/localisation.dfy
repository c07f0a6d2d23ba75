/** The customer languages and how the menu pages pick the text of a name
    in the current language: `langKey` turns the language code into the
    column suffix (`EN` → `En`), the page reads `name${key}`, and an empty
    text falls back to the English one. */
module Localisation {
  import opened Common
  import opened Store

  datatype Language = EN | TH | ZH | JA | ES

  /** The language code as the pages carry it. */
  function Code(l: Language): string
  {
    match l
    case EN => "EN"
    case TH => "TH"
    case ZH => "ZH"
    case JA => "JA"
    case ES => "ES"
  }

  /** `lang.charAt(0).toUpperCase() + lang.slice(1).toLowerCase()`. */
  function LangKey(code: string): (k: string)
    ensures |k| == |code|
    ensures |code| > 0 ==> k[0] == UpperChar(code[0])
    ensures forall i :: 1 <= i < |code| ==> k[i] == LowerChar(code[i])
  {
    if |code| == 0 then "" else [UpperChar(code[0])] + Lower(code[1..])
  }

  /** `item[`name${key}`]`: the column a key selects; a key that is not one
      of the five suffixes selects nothing (`undefined`). */
  function Column(n: Names, key: string): Option<string>
  {
    if key == "En" then Some(n.en)
    else if key == "Th" then Some(n.th)
    else if key == "Zh" then Some(n.zh)
    else if key == "Ja" then Some(n.ja)
    else if key == "Es" then Some(n.es)
    else None
  }

  /** The text of a language, by definition. */
  function TextIn(n: Names, l: Language): string
  {
    match l
    case EN => n.en
    case TH => n.th
    case ZH => n.zh
    case JA => n.ja
    case ES => n.es
  }

  /** The key of every language code selects that language's column. */
  lemma {:induction false} LangKeySelectsLanguage(n: Names, l: Language)
    ensures Column(n, LangKey(Code(l))) == Some(TextIn(n, l))
  {
    var c := Code(l);
    assert c[1..] == [c[1]];
  }

  /** The key does not depend on how the code is capitalised. */
  lemma {:induction false} LangKeyIgnoresCase(code: string)
    ensures LangKey(Lower(code)) == LangKey(code)
  {
    if |code| > 0 {
      var lowered := Lower(code);
      assert lowered[1..] == Lower(code[1..]);
      assert Lower(Lower(code[1..])) == Lower(code[1..]);
    }
  }

  /** `item[`name${lk}`] || item.nameEn`: the text in the language, or the
      English text when that one is empty. */
  function Localised(n: Names, l: Language): (r: string)
    ensures TextIn(n, l) != "" ==> r == TextIn(n, l)
    ensures TextIn(n, l) == "" ==> r == n.en
    ensures l == EN ==> r == n.en
  {
    LangKeySelectsLanguage(n, l);
    OrElse(Column(n, LangKey(Code(l))), n.en)
  }

  /** Only an all-empty name shows as empty: if any text is there, the
      English one or the chosen one, the page shows something. */
  lemma {:induction false} LocalisedEmptyOnlyIfBothEmpty(n: Names, l: Language)
    ensures Localised(n, l) == "" <==> TextIn(n, l) == "" && n.en == ""
  {
  }
}

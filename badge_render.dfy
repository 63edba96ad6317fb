/** What a popup looks like: its styles (the built-in defaults overlaid
    by the caller's overrides), its position style and its text (looked up
    in the table the language selects). */
module BadgeRender {
  import opened BadgeTypes

  /** A style object: CSS property name to value. */
  type Style = map<string, string>

  /** A translation table (the `./ru` and `./en` modules), type to text. */
  type Table = map<Type, string>

  datatype Tables = Tables(ru: Table, en: Table)

  /** `options.div` / `options.p`: an object that may carry a `style`. */
  datatype Part = Part(style: Option<Style>)

  /** The options the session reads. */
  datatype Options = Options(
    position: Option<string>,
    language: Option<string>,
    div: Option<Part>,
    p: Option<Part>)

  /** `Object.assign({ position: positions.topRight }, options)`: the
      caller's position wins; without one the position is "topRight". */
  function WithDefaultPosition(o: Options): (r: Options)
    ensures r.position == Some(o.position.GetOr("topRight"))
    ensures r.language == o.language && r.div == o.div && r.p == o.p
  {
    if o.position.Some? then o else o.(position := Some("topRight"))
  }

  /** The result of `Object.assign(target, source)` on plain objects: every
      key of either, with the source's value where the source has the key. */
  function Overlay(target: Style, source: Style): (r: Style)
    ensures r.Keys == target.Keys + source.Keys
    ensures forall k :: k in source ==> r[k] == source[k]
    ensures forall k :: k in target && k !in source ==> r[k] == target[k]
  {
    target + source
  }

  /** `Object.assign(target, source)`, copying the source's keys one by one. */
  method Assign(target: Style, source: Style) returns (r: Style)
    ensures r == Overlay(target, source)
  {
    r := target;
    var pending := source.Keys;
    while pending != {}
      invariant pending <= source.Keys
      invariant r.Keys == target.Keys + (source.Keys - pending)
      invariant forall k :: k in source && k !in pending ==> r[k] == source[k]
      invariant forall k :: k in target && k !in source ==> r[k] == target[k]
      invariant forall k :: k in target && k in pending ==> r[k] == target[k]
      decreases pending
    {
      var k :| k in pending;
      r := r[k := source[k]];
      pending := pending - {k};
    }
  }

  /** The built-in wrapper style. */
  const DefaultWrapper: Style := map[
    "position" := "fixed",
    "backgroundColor" := "#212121",
    "borderRadius" := "0.3em",
    "height" := "4em",
    "width" := "20em",
    "display" := "flex",
    "opacity" := "0.9"]

  /** The built-in text style. */
  const DefaultText: Style := map[
    "color" := "#cecece",
    "padding" := "0",
    "margin" := "auto",
    "fontSize" := "1.1em",
    "fontFamily" := "Roboto,sans-serif"]

  /** `options.div && options.div.style` (likewise for `p`): the override,
      or None when the part or its style is absent. */
  function Override(part: Option<Part>): (r: Option<Style>)
    ensures r.Some? <==> part.Some? && part.value.style.Some?
    ensures r.Some? ==> r == part.value.style
  {
    if part.Some? then part.value.style else None
  }

  /** One half of `setStyle`: start from the defaults, assign the override
      when there is one, then assign the result onto the node's (empty)
      style object. */
  method StyleNode(defaults: Style, over: Option<Style>) returns (r: Style)
    ensures r == Overlay(defaults, over.GetOr(map[]))
  {
    var style := defaults;
    if over.Some? {
      style := Assign(style, over.value);
    } else {
      assert Overlay(defaults, map[]) == defaults;
    }
    r := Assign(map[], style);
    assert Overlay(map[], style) == style;
  }

  /** `setStyle` on a freshly created node: the wrapper and the text each
      get their defaults overlaid with the override. */
  method SetStyle(div: Option<Style>, p: Option<Style>) returns (wrapper: Style, text: Style)
    ensures wrapper == Overlay(DefaultWrapper, div.GetOr(map[]))
    ensures text == Overlay(DefaultText, p.GetOr(map[]))
  {
    wrapper := StyleNode(DefaultWrapper, div);
    text := StyleNode(DefaultText, p);
  }

  /** Every key the caller sets gets the caller's value; every default key
      the caller leaves alone keeps its default. */
  lemma OverridesWin(defaults: Style, over: Option<Style>, k: string)
    ensures k in Overlay(defaults, over.GetOr(map[])) <==> k in defaults || (over.Some? && k in over.value)
    ensures over.Some? && k in over.value ==> Overlay(defaults, over.GetOr(map[]))[k] == over.value[k]
    ensures k in defaults && (over.None? || k !in over.value) ==>
              Overlay(defaults, over.GetOr(map[]))[k] == defaults[k]
  {
  }

  /** `setPosition`: whatever the position, the wrapper is anchored at the
      bottom left. */
  function PositionStyle(position: Option<string>): (r: Style)
    ensures r.Keys == {"bottom", "left"} && r["bottom"] == "1em" && r["left"] == "4em"
  {
    map["bottom" := "1em", "left" := "4em"]
  }

  /** The wrapper style of every node `createPopup` builds: defaults,
      then the caller's `div` override, then the position style. */
  function WrapperStyle(options: Options): (r: Style)
    ensures r.Keys == DefaultWrapper.Keys + Override(options.div).GetOr(map[]).Keys + {"bottom", "left"}
    ensures r["bottom"] == "1em" && r["left"] == "4em"
    ensures forall k :: k in Override(options.div).GetOr(map[]) && k != "bottom" && k != "left" ==>
              r[k] == Override(options.div).GetOr(map[])[k]
    ensures forall k :: k in DefaultWrapper && k !in Override(options.div).GetOr(map[]) && k != "bottom" && k != "left" ==>
              r[k] == DefaultWrapper[k]
  {
    Overlay(Overlay(DefaultWrapper, Override(options.div).GetOr(map[])), PositionStyle(options.position))
  }

  /** The text style of every node `createPopup` builds. */
  function TextStyle(options: Options): (r: Style)
    ensures r.Keys == DefaultText.Keys + Override(options.p).GetOr(map[]).Keys
    ensures forall k :: k in Override(options.p).GetOr(map[]) ==> r[k] == Override(options.p).GetOr(map[])[k]
    ensures forall k :: k in DefaultText && k !in Override(options.p).GetOr(map[]) ==> r[k] == DefaultText[k]
  {
    Overlay(DefaultText, Override(options.p).GetOr(map[]))
  }

  /** Lower-cases one ASCII letter; every other character is kept. */
  function LowerChar(c: char): char {
    if 'A' <= c <= 'Z' then (c as int + ('a' as int - 'A' as int)) as char else c
  }

  /** `toLowerCase`, restricted to ASCII letters. */
  function Lower(s: string): (r: string)
    ensures |r| == |s|
    ensures forall i :: 0 <= i < |s| ==> r[i] == LowerChar(s[i])
  {
    if s == [] then [] else [LowerChar(s[0])] + Lower(s[1..])
  }

  lemma LowerCharIs(c: char, lower: char)
    requires 'a' <= lower <= 'z'
    ensures LowerChar(c) == lower <==> c == lower || c as int == lower as int - ('a' as int - 'A' as int)
  {
  }

  /** The four spellings that select the Russian table. */
  lemma {:induction false} RussianSpellings(s: string)
    ensures Lower(s) == "ru" <==> s in {"ru", "rU", "Ru", "RU"}
  {
    if Lower(s) == "ru" {
      assert |s| == 2;
      LowerCharIs(s[0], 'r');
      LowerCharIs(s[1], 'u');
      assert s == [s[0], s[1]];
    }
    if s in {"ru", "rU", "Ru", "RU"} {
      assert Lower(s) == [LowerChar(s[0]), LowerChar(s[1])];
    }
  }

  /** The `switch` in `setText`: `language && language.toLowerCase()`
      compared with 'ru'; an absent (or empty) language, 'en' and every
      other value fall through to the English table. */
  function SelectTable(language: Option<string>, tables: Tables): (r: Table)
    ensures r == tables.ru || r == tables.en
    ensures language.None? || language.value == "" || language.value == "en" ==> r == tables.en
  {
    if language.Some? && Lower(language.value) == "ru" then tables.ru else tables.en
  }

  /** The Russian table is chosen exactly for the four case variants of
      "ru"; everything else, including no language, gets English. */
  lemma {:induction false} TableChoice(language: Option<string>, tables: Tables)
    ensures SelectTable(language, tables) ==
              if language.Some? && language.value in {"ru", "rU", "Ru", "RU"} then tables.ru else tables.en
  {
    if language.Some? {
      RussianSpellings(language.value);
    }
  }

  /** The text `setText` puts into the paragraph: the selected table's
      entry for the type, None when the table has no entry. */
  function TextFor(t: Type, language: Option<string>, tables: Tables): (r: Option<string>)
    ensures r.Some? ==> t in SelectTable(language, tables) && r.value == SelectTable(language, tables)[t]
    ensures language.None? ==> r == (if t in tables.en then Some(tables.en[t]) else None)
    ensures r.None? <==> t !in SelectTable(language, tables)
  {
    var table := SelectTable(language, tables);
    if t in table then Some(table[t]) else None
  }

  /** The text for each language: the Russian entry for the four case
      variants of "ru", the English entry for every other language and for
      none. */
  lemma {:induction false} TextChoice(t: Type, language: Option<string>, tables: Tables)
    ensures TextFor(t, language, tables) ==
              if language.Some? && language.value in {"ru", "rU", "Ru", "RU"} then
                (if t in tables.ru then Some(tables.ru[t]) else None)
              else
                (if t in tables.en then Some(tables.en[t]) else None)
  {
    TableChoice(language, tables);
  }
}

// Two GUI helpers with decidable behaviour: the level class a progress
// bar's style context carries (`style_progress_bar_by_value`), and the
// text or markup a label ends up showing (`create_label`,
// `create_markup_label`).
module GuiUtils {
  import opened Common

  /** A widget's style context: the set of CSS class names it carries. */
  class StyleContext {
    var classes: set<string>

    constructor (initial: set<string>)
      ensures classes == initial
    {
      classes := initial;
    }

    method RemoveClass(name: string)
      modifies this
      ensures classes == old(classes) - {name}
    {
      classes := classes - {name};
    }

    method AddClass(name: string)
      modifies this
      ensures classes == old(classes) + {name}
    {
      classes := classes + {name};
    }
  }

  /** The four level class names a caller passes; `None` stands for NULL. */
  datatype LevelClasses = LevelClasses(low: Option<string>, medium: Option<string>, high: Option<string>, critical: Option<string>)

  function AsSet(name: Option<string>): set<string> {
    if name.Some? then {name.value} else {}
  }

  /** Every non-NULL name among the four. */
  function Named(names: LevelClasses): set<string> {
    AsSet(names.low) + AsSet(names.medium) + AsSet(names.high) + AsSet(names.critical)
  }

  /** The class for `value`: critical from the high threshold up, then high, medium, and low below the low threshold. */
  function ChosenClass(value: real, low: real, medium: real, high: real, names: LevelClasses): Option<string> {
    if value >= high then names.critical
    else if value >= medium then names.high
    else if value >= low then names.medium
    else names.low
  }

  /** The class set after the call: the four named classes removed, then the chosen one added. */
  function StyledClasses(classes: set<string>, value: real, low: real, medium: real, high: real,
                         names: LevelClasses): set<string> {
    (classes - Named(names)) + AsSet(ChosenClass(value, low, medium, high, names))
  }

  /**
   * Afterwards exactly the chosen level class is present among the four
   * (none when its name is NULL), and every other class is as it was.
   */
  lemma StyledClassesExactlyOne(classes: set<string>, value: real, low: real, medium: real, high: real,
                                names: LevelClasses)
    ensures var after := StyledClasses(classes, value, low, medium, high, names);
      after * Named(names) == AsSet(ChosenClass(value, low, medium, high, names))
      && after - Named(names) == classes - Named(names)
  {
    var chosen := ChosenClass(value, low, medium, high, names);
    assert AsSet(chosen) <= Named(names);
  }

  /** With ordered thresholds the four classes cover the four ranges [high,∞), [medium,high), [low,medium), (−∞,low). */
  lemma ChosenClassByRange(value: real, low: real, medium: real, high: real, names: LevelClasses)
    requires low <= medium <= high
    ensures value >= high ==> ChosenClass(value, low, medium, high, names) == names.critical
    ensures medium <= value < high ==> ChosenClass(value, low, medium, high, names) == names.high
    ensures low <= value < medium ==> ChosenClass(value, low, medium, high, names) == names.medium
    ensures value < low ==> ChosenClass(value, low, medium, high, names) == names.low
  {
  }

  /** Restyling is idempotent: the same value applied twice leaves the same classes. */
  lemma StyledClassesIdempotent(classes: set<string>, value: real, low: real, medium: real, high: real,
                                names: LevelClasses)
    ensures var once := StyledClasses(classes, value, low, medium, high, names);
      StyledClasses(once, value, low, medium, high, names) == once
  {
    var chosen := ChosenClass(value, low, medium, high, names);
    assert AsSet(chosen) <= Named(names);
  }

  /** `style_progress_bar_by_value`: nothing for a NULL bar, else remove the four classes one by one and add the chosen one. */
  method StyleProgressBarByValue(bar: StyleContext?, value: real, low: real, medium: real, high: real,
                                 names: LevelClasses)
    modifies bar
    ensures bar != null ==> bar.classes == StyledClasses(old(bar.classes), value, low, medium, high, names)
  {
    if bar == null {
      return;
    }
    if names.low.Some? {
      bar.RemoveClass(names.low.value);
    }
    if names.medium.Some? {
      bar.RemoveClass(names.medium.value);
    }
    if names.high.Some? {
      bar.RemoveClass(names.high.value);
    }
    if names.critical.Some? {
      bar.RemoveClass(names.critical.value);
    }
    assert bar.classes == old(bar.classes) - Named(names);
    if value >= high {
      if names.critical.Some? {
        bar.AddClass(names.critical.value);
      }
    } else if value >= medium {
      if names.high.Some? {
        bar.AddClass(names.high.value);
      }
    } else if value >= low {
      if names.medium.Some? {
        bar.AddClass(names.medium.value);
      }
    } else {
      if names.low.Some? {
        bar.AddClass(names.low.value);
      }
    }
  }

  datatype Justification = JustifyLeft | JustifyRight | JustifyCenter | JustifyFill

  datatype Ellipsize = EllipsizeNone | EllipsizeStart | EllipsizeMiddle | EllipsizeEnd

  /** The label-specific part of `LabelOptions`; `None` stands for a NULL string. */
  datatype LabelOptions = LabelOptions(
    text: Option<string>, useMarkup: bool, selectable: bool, justify: Justification,
    xalign: real, yalign: real, ellipsize: Ellipsize, maxWidthChars: int,
    color: Option<string>, fontDesc: Option<string>)

  /** `create_default_label_options`: no text, plain, left-justified, vertically centred, no font or colour. */
  const DefaultLabelOptions := LabelOptions(None, false, false, JustifyLeft, 0.0, 0.5, EllipsizeNone, -1, None, None)

  /** What a label finally shows: nothing, plain text, or Pango markup. */
  datatype LabelText = NoText | Plain(text: string) | Markup(markup: string)

  /**
   * The control characters markup escaping writes as numeric character
   * references: U+0001–U+0008, U+000B, U+000C, U+000E–U+001F,
   * U+007F–U+0084 and U+0086–U+009F.
   */
  predicate IsEscapedControl(c: char) {
    (0x01 <= c as int <= 0x08) || c as int == 0x0b || c as int == 0x0c || (0x0e <= c as int <= 0x1f)
    || (0x7f <= c as int <= 0x84) || (0x86 <= c as int <= 0x9f)
  }

  /** One lower-case hexadecimal digit. */
  function HexDigit(d: nat): (c: char)
    requires d < 16
    ensures HexValue(c) == d
  {
    if d < 10 then ('0' as int + d) as char else ('a' as int + d - 10) as char
  }

  /** The value of a lower-case hexadecimal digit, -1 for any other character. */
  function HexValue(c: char): (v: int)
    ensures -1 <= v < 16
  {
    if '0' <= c <= '9' then c as int - '0' as int
    else if 'a' <= c <= 'f' then c as int - 'a' as int + 10
    else -1
  }

  /** `%x` of a value below 256: one digit below 16, two otherwise, no leading zero. */
  function Hex(n: nat): (r: string)
    requires n < 256
    ensures 1 <= |r| <= 2 && (|r| == 1 <==> n < 16)
    ensures forall k :: 0 <= k < |r| ==> HexValue(r[k]) >= 0
  {
    if n < 16 then [HexDigit(n)] else [HexDigit(n / 16), HexDigit(n % 16)]
  }

  /** How one character appears after markup escaping. */
  function EscapeChar(c: char): string {
    if c == '&' then "&amp;"
    else if c == '<' then "&lt;"
    else if c == '>' then "&gt;"
    else if c == '\'' then "&apos;"
    else if c == '"' then "&quot;"
    else if IsEscapedControl(c) then "&#x" + Hex(c as int) + ";"
    else [c]
  }

  /**
   * Markup escaping of a string argument, as `g_markup_printf_escaped`
   * applies to each `%s`: the five markup characters become entities and
   * the listed control characters numeric references (text is taken as
   * Unicode code points).
   */
  function Escape(s: string): (r: string)
    ensures |r| >= |s|
  {
    if s == [] then [] else EscapeChar(s[0]) + Escape(s[1..])
  }

  /** `s` has at least `|p|` characters and starts with `p`, compared character by character. */
  predicate StartsWith(s: string, p: string) {
    |p| <= |s| && forall k :: 0 <= k < |p| ==> s[k] == p[k]
  }

  /** A numeric reference `&#x` + one or two hex digits + `;` at the front of `s`: the character and the length read. */
  function ReadReference(s: string): (r: Option<(char, nat)>)
    ensures r.Some? ==> 5 <= r.value.1 <= |s|
  {
    if |s| >= 5 && s[0] == '&' && s[1] == '#' && s[2] == 'x' && HexValue(s[3]) >= 0 && s[4] == ';' then
      Some((HexValue(s[3]) as char, 5))
    else if |s| >= 6 && s[0] == '&' && s[1] == '#' && s[2] == 'x' && HexValue(s[3]) >= 0 && HexValue(s[4]) >= 0 && s[5] == ';' then
      Some(((16 * HexValue(s[3]) + HexValue(s[4])) as char, 6))
    else None
  }

  /** The character at the front of escaped text and how many characters it took up. */
  function ReadOne(s: string): (r: (char, nat))
    requires s != []
    ensures 1 <= r.1 <= |s|
  {
    if s[0] != '&' then (s[0], 1)
    else if ReadReference(s).Some? then ReadReference(s).value
    else if StartsWith(s, "&amp;") then ('&', 5)
    else if StartsWith(s, "&lt;") then ('<', 4)
    else if StartsWith(s, "&gt;") then ('>', 4)
    else if StartsWith(s, "&apos;") then ('\'', 6)
    else if StartsWith(s, "&quot;") then ('"', 6)
    else ('&', 1)
  }

  /** Reading escaped text back: each entity or numeric reference becomes its character again. */
  function Unescape(s: string): string
    decreases |s|
  {
    if s == [] then [] else [ReadOne(s).0] + Unescape(s[ReadOne(s).1..])
  }

  /** A numeric reference is read back as the control character it stands for. */
  lemma ControlStep(c: char, rest: string)
    requires IsEscapedControl(c)
    ensures ReadOne(EscapeChar(c) + rest) == (c, |EscapeChar(c)|)
  {
    var e := EscapeChar(c) + rest;
    assert EscapeChar(c) == "&#x" + Hex(c as int) + ";";
    assert e[0] == '&' && e[1] == '#' && e[2] == 'x';
    if c as int < 16 {
      assert e[3] == HexDigit(c as int) && e[4] == ';';
    } else {
      assert e[3] == HexDigit(c as int / 16) && e[4] == HexDigit(c as int % 16) && e[5] == ';';
    }
  }

  /** A named entity is not mistaken for a numeric reference and is read back as its character. */
  lemma EntityStep(c: char, rest: string)
    requires !IsEscapedControl(c) || c == '&' || c == '<' || c == '>' || c == '\'' || c == '"'
    ensures ReadOne(EscapeChar(c) + rest) == (c, |EscapeChar(c)|)
  {
    var e := EscapeChar(c) + rest;
    assert StartsWith(e, EscapeChar(c));
    if c == '&' || c == '<' || c == '>' || c == '\'' || c == '"' {
      assert e[1] != '#';
      if c == '<' {
        assert e[1] == 'l';
      } else if c == '>' {
        assert e[1] == 'g';
      } else if c == '\'' {
        assert e[1] == 'a' && e[2] == 'p';
      } else if c == '"' {
        assert e[1] == 'q';
      }
    }
  }

  lemma UnescapeStep(c: char, rest: string)
    ensures Unescape(EscapeChar(c) + rest) == [c] + Unescape(rest)
  {
    var e := EscapeChar(c) + rest;
    if IsEscapedControl(c) && c != '&' && c != '<' && c != '>' && c != '\'' && c != '"' {
      ControlStep(c, rest);
    } else {
      EntityStep(c, rest);
    }
    assert e[|EscapeChar(c)|..] == rest;
  }

  lemma {:induction false} EscapeRoundTrip(s: string)
    ensures Unescape(Escape(s)) == s
  {
    if s != [] {
      UnescapeStep(s[0], Escape(s[1..]));
      EscapeRoundTrip(s[1..]);
    }
  }

  /** Escaped text holds no tag delimiters, so it can never be taken for markup. */
  lemma {:induction false} EscapeHasNoTags(s: string)
    ensures forall i :: 0 <= i < |Escape(s)| ==> Escape(s)[i] != '<' && Escape(s)[i] != '>'
  {
    if s != [] {
      EscapeHasNoTags(s[1..]);
      EscapeCharHasNoTags(s[0]);
      var e, t := EscapeChar(s[0]), Escape(s[1..]);
      assert Escape(s) == e + t;
      assert forall i :: |e| <= i < |e + t| ==> (e + t)[i] == t[i - |e|];
    }
  }

  /** No single escaped character contains a tag delimiter. */
  lemma EscapeCharHasNoTags(c: char)
    ensures forall i :: 0 <= i < |EscapeChar(c)| ==> EscapeChar(c)[i] != '<' && EscapeChar(c)[i] != '>'
  {
    if IsEscapedControl(c) && c != '&' && c != '<' && c != '>' && c != '\'' && c != '"' {
      var h := Hex(c as int);
      assert EscapeChar(c) == "&#x" + h + ";";
      assert forall k :: 0 <= k < |h| ==> HexValue(h[k]) >= 0;
    }
  }

  /** The span `create_label` wraps the text in, every argument escaped. */
  function Span(font: Option<string>, color: Option<string>, text: string): string
    requires font.Some? || color.Some?
  {
    if font.Some? && color.Some? then
      "<span font_desc='" + Escape(font.value) + "' foreground='" + Escape(color.value) + "'>" + Escape(text) + "</span>"
    else if font.Some? then "<span font_desc='" + Escape(font.value) + "'>" + Escape(text) + "</span>"
    else "<span foreground='" + Escape(color.value) + "'>" + Escape(text) + "</span>"
  }

  /**
   * `create_label`: markup when asked for and text is given, plain text
   * otherwise; with a font or colour and some text, the final content is
   * the span around the escaped text, whatever was set before.
   */
  function CreateLabel(options: Option<LabelOptions>): LabelText {
    if options.None? then NoText
    else
      var o := options.value;
      if (o.fontDesc.Some? || o.color.Some?) && o.text.Some? then Markup(Span(o.fontDesc, o.color, o.text.value))
      else if o.useMarkup && o.text.Some? then Markup(o.text.value)
      else if o.text.Some? then Plain(o.text.value)
      else NoText
  }

  /** `create_markup_label`: the given options (or the defaults) with the text replaced by `markup` and markup switched on. */
  function CreateMarkupLabel(markup: string, options: Option<LabelOptions>): LabelText {
    var local := if options.None? then DefaultLabelOptions else options.value;
    CreateLabel(Some(local.(text := Some(markup), useMarkup := true)))
  }

  /**
   * Markup passed to `create_markup_label` is honoured only without a font
   * and colour; with either, it is escaped and shown literally, its tags
   * included.
   */
  lemma MarkupLabelChoice(markup: string, options: Option<LabelOptions>)
    ensures options.None? || (options.value.fontDesc.None? && options.value.color.None?) ==>
      CreateMarkupLabel(markup, options) == Markup(markup)
    ensures options.Some? && (options.value.fontDesc.Some? || options.value.color.Some?) ==>
      CreateMarkupLabel(markup, options) == Markup(Span(options.value.fontDesc, options.value.color, markup))
      && Unescape(Escape(markup)) == markup
  {
    EscapeRoundTrip(markup);
  }
}

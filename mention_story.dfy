/** The mention-suggestion stories of the session chat input: a textarea
    whose navigation keys are handed to the suggestion list while the text
    before the cursor ends in a mention (`@` followed by word characters or
    hyphens). The regular expression is modelled as a predicate; the DOM query
    for the suggestion list is a flag, and the story's React state is a class. */
module MentionSuggestorStory {
  import opened JsSemantics

  const DefaultTrigger := '@'

  /** The keys the handler intercepts. */
  const NavigationKeys: set<string> := {"ArrowDown", "ArrowUp", "Enter", "Tab", "Escape"}

  /** `[\w-]` without the `u` flag: ASCII letters, digits, `_` and `-`. */
  predicate IsMentionChar(c: char)
  {
    ('a' <= c <= 'z') || ('A' <= c <= 'Z') || ('0' <= c <= '9') || c == '_' || c == '-'
  }

  /** Characters that `\` turns into something other than themselves in a
      regular expression (`\d`, `\w`, `\1`, ...). */
  predicate IsAsciiAlphanumeric(c: char)
  {
    ('a' <= c <= 'z') || ('A' <= c <= 'Z') || ('0' <= c <= '9')
  }

  /** Every character of `s` from index `k` on is a mention character. */
  ghost predicate MentionCharsFrom(s: string, k: nat)
  {
    forall j :: k <= j < |s| ==> IsMentionChar(s[j])
  }

  /** What `/\<trigger>[\w-]*$/.test(s)` means: some occurrence of the
      trigger is followed only by mention characters up to the end. */
  ghost predicate EndsWithMention(s: string, trigger: char)
  {
    exists i :: 0 <= i < |s| && s[i] == trigger && MentionCharsFrom(s, i + 1)
  }

  /** The same test as a scan from the end of the string. */
  function MatchesMentionAtEnd(s: string, trigger: char): (b: bool)
    ensures b ==> s != [] && (s[|s| - 1] == trigger || IsMentionChar(s[|s| - 1]))
  {
    if s == [] then false
    else if s[|s| - 1] == trigger then true
    else IsMentionChar(s[|s| - 1]) && MatchesMentionAtEnd(s[..|s| - 1], trigger)
  }

  /** The scan decides exactly the regular expression's language. */
  lemma {:induction false} MatchesMentionAtEndIff(s: string, trigger: char)
    ensures MatchesMentionAtEnd(s, trigger) <==> EndsWithMention(s, trigger)
  {
    if s == [] {
    } else if s[|s| - 1] == trigger {
      assert MentionCharsFrom(s, |s|);
    } else {
      var t := s[..|s| - 1];
      MatchesMentionAtEndIff(t, trigger);
      if MatchesMentionAtEnd(s, trigger) {
        var i :| 0 <= i < |t| && t[i] == trigger && MentionCharsFrom(t, i + 1);
        assert s[i] == trigger && MentionCharsFrom(s, i + 1);
      }
      if EndsWithMention(s, trigger) {
        var i :| 0 <= i < |s| && s[i] == trigger && MentionCharsFrom(s, i + 1);
        assert i < |s| - 1 && IsMentionChar(s[|s| - 1]);
        assert t[i] == trigger && MentionCharsFrom(t, i + 1);
      }
    }
  }

  /** The condition of `handleSuggestionKeyDown`: the text before the cursor,
      `input.slice(0, cursorPos)`, ends in a mention. */
  function SuggestionsVisible(input: string, cursorPos: int, trigger: char): (b: bool)
    requires !IsAsciiAlphanumeric(trigger)
    ensures b <==> EndsWithMention(SliceTo(input, cursorPos), trigger)
  {
    MatchesMentionAtEndIff(SliceTo(input, cursorPos), trigger);
    MatchesMentionAtEnd(SliceTo(input, cursorPos), trigger)
  }

  /** Text after the cursor never changes whether suggestions are visible. */
  lemma TextAfterCursorIrrelevant(input: string, after: string, cursorPos: int, trigger: char)
    requires !IsAsciiAlphanumeric(trigger)
    requires 0 <= cursorPos <= |input|
    ensures SuggestionsVisible(input + after, cursorPos, trigger) == SuggestionsVisible(input, cursorPos, trigger)
  {
    assert SliceTo(input + after, cursorPos) == SliceTo(input, cursorPos);
  }

  datatype KeyEvent = KeyEvent(key: string, code: string, keyCode: int)

  /** The `keydown` event dispatched on the suggestion list. */
  datatype ForwardedEvent = ForwardedEvent(key: string, code: string, keyCode: int, bubbles: bool)

  /** The handler's effects: whether it called `preventDefault`, and the
      event it dispatched on the suggestion list, if any. */
  datatype KeyDownEffect = KeyDownEffect(defaultPrevented: bool, forwarded: Option<ForwardedEvent>)

  /** `handleSuggestionKeyDown`: a navigation key typed while suggestions
      are visible has its default prevented and, when the suggestion list is
      in the document, is re-dispatched there with the same key, code and
      key code. Every other keystroke is left alone. */
  function HandleSuggestionKeyDown(e: KeyEvent, input: string, cursorPos: int, trigger: char, suggestorPresent: bool)
    : (eff: KeyDownEffect)
    requires !IsAsciiAlphanumeric(trigger)
    ensures eff.defaultPrevented <==> EndsWithMention(SliceTo(input, cursorPos), trigger) && e.key in NavigationKeys
    ensures eff.forwarded.Some? <==> eff.defaultPrevented && suggestorPresent
    ensures eff.forwarded.Some? ==>
      eff.forwarded.value == ForwardedEvent(e.key, e.code, e.keyCode, true)
  {
    if SuggestionsVisible(input, cursorPos, trigger) && e.key in NavigationKeys then
      KeyDownEffect(true, if suggestorPresent then Some(ForwardedEvent(e.key, e.code, e.keyCode, true)) else None)
    else
      KeyDownEffect(false, None)
  }

  /** A suggestion the list offers; the story uses only its `label`. */
  datatype MentionItem = MentionItem(labelText: string)

  /** The state of one story render (both stories render alike). */
  class MentionStory {
    var input: string
    var cursorPos: int
    var selected: Option<string>

    /** `useState(args.input)`, `useState(args.cursorPos)`, `useState(null)`. */
    constructor (initialInput: string, initialCursorPos: int)
      ensures input == initialInput && cursorPos == initialCursorPos && selected == None
    {
      input, cursorPos, selected := initialInput, initialCursorPos, None;
    }

    /** The `enabled` prop: the `@` test on the text before the cursor. */
    function Enabled(): (b: bool)
      reads this
      ensures b <==> EndsWithMention(SliceTo(input, cursorPos), DefaultTrigger)
    {
      SuggestionsVisible(input, cursorPos, DefaultTrigger)
    }

    /** The textarea's `onChange`. */
    method OnChange(value: string, selectionStart: int)
      modifies this
      ensures input == value && cursorPos == selectionStart && selected == old(selected)
    {
      input := value;
      cursorPos := selectionStart;
    }

    /** The textarea's `onClick`. */
    method OnClick(selectionStart: int)
      modifies this
      ensures cursorPos == selectionStart && input == old(input) && selected == old(selected)
    {
      cursorPos := selectionStart;
    }

    /** The textarea's `onKeyDown`: the handler sees the input and the cursor
        position of the current render; the new cursor position is stored
        for the next one. */
    method OnKeyDown(e: KeyEvent, selectionStart: int, suggestorPresent: bool) returns (eff: KeyDownEffect)
      modifies this
      ensures eff == HandleSuggestionKeyDown(e, old(input), old(cursorPos), DefaultTrigger, suggestorPresent)
      ensures cursorPos == selectionStart && input == old(input) && selected == old(selected)
    {
      eff := HandleSuggestionKeyDown(e, input, cursorPos, DefaultTrigger, suggestorPresent);
      cursorPos := selectionStart;
    }

    /** The suggestor's `onSelect`: remembers the chosen label. */
    method OnSelect(item: MentionItem)
      modifies this
      ensures selected == Some(item.labelText) && input == old(input) && cursorPos == old(cursorPos)
    {
      selected := Some(item.labelText);
    }

    /** `selected && <div>Selected: ...</div>`: the line appears only for a
        non-empty label. */
    function SelectedShown(): (b: bool)
      reads this
      ensures b <==> selected.Some? && selected.value != ""
    {
      !IsFalsy(selected)
    }
  }
}

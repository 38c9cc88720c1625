/** The new-habit form: a title, a selection of weekdays, and the create
    action that validates them, posts them and clears the form. */
module NewHabitScreen {
  import opened ListToggle
  import opened Remote

  /** The seven weekday labels, Sunday first; a weekday is an index into it. */
  const AvailableWeekdays: seq<string> :=
    ["Domingo", "Segunda-feira", "Terça-feira", "Quarta-feira",
     "Quinta-feira", "Sexta-feira", "Sábado"]

  /** The characters `String.prototype.trim` strips: the ECMAScript
      WhiteSpace (TAB, VT, FF, ZWNBSP and the Unicode space separators)
      and LineTerminator (LF, CR, LS, PS) code points. */
  predicate IsWhitespace(c: char) {
    || c == '\t' || c == '\n' || c == '\U{000B}' || c == '\U{000C}' || c == '\r'
    || c == ' ' || c == '\U{00A0}' || c == '\U{1680}'
    || ('\U{2000}' <= c <= '\U{200A}')
    || c == '\U{2028}' || c == '\U{2029}' || c == '\U{202F}' || c == '\U{205F}'
    || c == '\U{3000}' || c == '\U{FEFF}'
  }

  /** The string consists of whitespace only (or nothing). */
  ghost predicate IsBlank(s: string) {
    forall i :: 0 <= i < |s| ==> IsWhitespace(s[i])
  }

  /** Strips leading whitespace: the result is the suffix of `s` that starts
      at its first non-whitespace character. */
  function TrimStart(s: string): (r: string)
    ensures |r| <= |s| && r == s[|s| - |r|..]
    ensures forall i :: 0 <= i < |s| - |r| ==> IsWhitespace(s[i])
    ensures r != [] ==> !IsWhitespace(r[0])
  {
    if s != [] && IsWhitespace(s[0]) then TrimStart(s[1..]) else s
  }

  /** Strips trailing whitespace: the result is the prefix of `s` that ends
      at its last non-whitespace character. */
  function TrimEnd(s: string): (r: string)
    ensures |r| <= |s| && r == s[..|r|]
    ensures forall i :: |r| <= i < |s| ==> IsWhitespace(s[i])
    ensures r != [] ==> !IsWhitespace(r[|r| - 1])
  {
    if s != [] && IsWhitespace(s[|s| - 1]) then TrimEnd(s[..|s| - 1]) else s
  }

  /** `s.trim()`: the middle slice of `s` left once the whitespace before
      and after it is stripped; empty exactly when `s` is blank, and
      otherwise beginning and ending with a non-whitespace character. */
  function Trim(s: string): (r: string)
    ensures exists k :: 0 <= k <= |s| - |r| && r == s[k..k + |r|] && IsBlank(s[..k]) && IsBlank(s[k + |r|..])
    ensures r != [] ==> !IsWhitespace(r[0]) && !IsWhitespace(r[|r| - 1])
    ensures r == [] <==> IsBlank(s)
  {
    var t := TrimStart(s);
    var r := TrimEnd(t);
    var k := |s| - |t|;
    assert r == s[k..k + |r|];
    assert IsBlank(s[..k]);
    var tail := s[k + |r|..];
    assert IsBlank(tail) by {
      forall i | 0 <= i < |tail| ensures IsWhitespace(tail[i]) {
        assert tail[i] == t[|r| + i];
      }
    }
    assert r != [] ==> r[0] == t[0];
    r
  }

  /** The create action's guard: the title has a non-whitespace character
      and at least one weekday is selected. */
  function CanCreate(title: string, weekdays: seq<int>): (ok: bool)
    ensures ok <==> !IsBlank(title) && weekdays != []
  {
    Trim(title) != [] && |weekdays| != 0
  }

  /** The body of `POST habits`. */
  datatype NewHabitBody = NewHabitBody(title: string, weekdays: seq<int>)

  /** The alerts the create action raises. */
  datatype Notice = MissingFields | Created | CreateFailed

  class NewHabitForm {
    var weekdays: seq<int>
    var title: string

    /** Selected weekdays are distinct indices into AvailableWeekdays. */
    ghost predicate Valid()
      reads this
    {
      && (forall w :: w in weekdays ==> 0 <= w < |AvailableWeekdays|)
      && NoDup(weekdays)
    }

    constructor ()
      ensures Valid() && weekdays == [] && title == ""
    {
      weekdays := [];
      title := "";
    }

    /** The text input's change handler. */
    method ChangeTitle(text: string)
      modifies this
      ensures title == text && weekdays == old(weekdays)
      ensures old(Valid()) ==> Valid()
    {
      title := text;
    }

    /** Deselects a selected weekday (the others keep their order) or
        appends an unselected one. The form only passes indices of
        AvailableWeekdays, and then the selection stays valid. */
    method HandleToggleWeekday(weekdayIndex: int)
      modifies this
      ensures weekdays == Toggle(old(weekdays), weekdayIndex) && title == old(title)
      ensures old(Valid()) && 0 <= weekdayIndex < |AvailableWeekdays| ==> Valid()
    {
      ghost var before := weekdays;
      if weekdayIndex in weekdays {
        weekdays := Remove(weekdays, weekdayIndex);
        if NoDup(before) {
          ToggleKeepsNoDup(before, weekdayIndex);
        }
        return;
      }
      weekdays := weekdays + [weekdayIndex];
      if NoDup(before) {
        ToggleKeepsNoDup(before, weekdayIndex);
      }
    }

    /** Validates, then posts the form with the reply `reply`. Returns the
        posted body, if a request was issued, and the alert shown. */
    method HandleCreateNewHabit(reply: Reply<()>) returns (posted: Option<NewHabitBody>, notice: Notice)
      modifies this
      ensures !CanCreate(old(title), old(weekdays)) ==>
                posted == None && notice == MissingFields &&
                title == old(title) && weekdays == old(weekdays)
      ensures CanCreate(old(title), old(weekdays)) ==>
                posted == Some(NewHabitBody(old(title), old(weekdays)))
      ensures posted.Some? && reply.Ok? ==> title == "" && weekdays == [] && notice == Created
      ensures posted.Some? && reply.Failed? ==>
                title == old(title) && weekdays == old(weekdays) && notice == CreateFailed
      ensures old(Valid()) ==> Valid()
    {
      if Trim(title) == [] || |weekdays| == 0 {
        return None, MissingFields;
      }
      posted := Some(NewHabitBody(title, weekdays));
      if reply.Failed? {
        return posted, CreateFailed;
      }
      ResetState();
      notice := Created;
    }

    /** Clears the form. */
    method ResetState()
      modifies this
      ensures title == "" && weekdays == []
      ensures Valid()
    {
      title := "";
      weekdays := [];
    }
  }
}

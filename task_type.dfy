/** `TaskType`: the two task lists and the fixed texts and colours the
    interface shows for each. */
module TaskTypes {
  import opened Strings

  datatype TaskType = WORK | STUDY

  function DisplayName(t: TaskType): string {
    match t
    case WORK => "Work"
    case STUDY => "Study"
  }

  function Icon(t: TaskType): string {
    match t
    case WORK => "\U{1F4BC}"
    case STUDY => "\U{1F4DA}"
  }

  function Description(t: TaskType): string {
    match t
    case WORK => "Professional tasks, projects, meetings"
    case STUDY => "Learning, homework, exam preparation"
  }

  /** `getFullLabel`: the icon, a space, then the display name. */
  function FullLabel(t: TaskType): (text: string)
    ensures StartsWith(text, Icon(t) + " ")
    ensures EndsWith(text, DisplayName(t))
    ensures |text| == |Icon(t)| + 1 + |DisplayName(t)|
  {
    Icon(t) + " " + DisplayName(t)
  }

  /** `getTaskPrompt`: the placeholder of the new-task field, which names
      the type in lower case between "Add " and " task...". */
  function TaskPrompt(t: TaskType): (prompt: string)
    ensures StartsWith(prompt, "Add ") && EndsWith(prompt, " task...")
    ensures |prompt| == 4 + |DisplayName(t)| + 8
    ensures EqualsIgnoreCase(DisplayName(t), prompt[4..|prompt| - 8])
  {
    match t
    case WORK => "Add work task..."
    case STUDY => "Add study task..."
  }

  /** `getListTitle`: the display name followed by " Tasks". */
  function ListTitle(t: TaskType): (title: string)
    ensures StartsWith(title, DisplayName(t)) && EndsWith(title, " Tasks")
    ensures |title| == |DisplayName(t)| + 6
  {
    DisplayName(t) + " Tasks"
  }

  /** A `#RRGGBB` colour. */
  predicate HexColour(c: string) {
    |c| == 7 && c[0] == '#' && forall i :: 1 <= i < 7 ==> IsHexDigit(c[i])
  }

  predicate IsHexDigit(ch: char) {
    '0' <= ch <= '9' || 'A' <= ch <= 'F'
  }

  function HexValue(ch: char): nat
    requires IsHexDigit(ch)
  {
    if '0' <= ch <= '9' then ch as nat - '0' as nat else ch as nat - 'A' as nat + 10
  }

  /** Channel `k` (0 red, 1 green, 2 blue) of a `#RRGGBB` colour. */
  function Channel(c: string, k: nat): nat
    requires HexColour(c) && k < 3
  {
    HexValue(c[1 + 2 * k]) * 16 + HexValue(c[2 + 2 * k])
  }

  /** `getColorCode`: the list's main colour. */
  function ColorCode(t: TaskType): (code: string)
    ensures HexColour(code)
  {
    match t
    case WORK => "#2196F3"
    case STUDY => "#4CAF50"
  }

  /** `getLightColorCode`: the list's background colour, a lighter shade
      of the main colour: every channel is brighter. */
  function LightColorCode(t: TaskType): (code: string)
    ensures HexColour(code)
    ensures forall k :: 0 <= k < 3 ==> Channel(ColorCode(t), k) < Channel(code, k)
  {
    match t
    case WORK => "#E3F2FD"
    case STUDY => "#E8F5E8"
  }

  /** The two list titles are "Work Tasks" and "Study Tasks". */
  lemma ListTitles()
    ensures ListTitle(WORK) == "Work Tasks"
    ensures ListTitle(STUDY) == "Study Tasks"
  {
  }

  /** Every text and colour tells the two types apart, and no type's main
      colour is its own or the other's light colour. */
  lemma TablesDistinguishTypes(t: TaskType, u: TaskType)
    ensures TaskPrompt(t) == TaskPrompt(u) <==> t == u
    ensures ListTitle(t) == ListTitle(u) <==> t == u
    ensures ColorCode(t) == ColorCode(u) <==> t == u
    ensures LightColorCode(t) == LightColorCode(u) <==> t == u
    ensures ColorCode(t) != LightColorCode(u)
  {
    if t != u {
      assert TaskPrompt(t)[4] != TaskPrompt(u)[4];
      assert ListTitle(t)[0] != ListTitle(u)[0];
      assert ColorCode(t)[1] != ColorCode(u)[1];
      assert LightColorCode(t)[2] != LightColorCode(u)[2];
    }
    assert ColorCode(t)[1] != LightColorCode(u)[1];
  }
}

/**
 * The time-of-day message selector of hooks/useTimedMessage.ts: an hour of
 * the day is classified into one of three themes, each theme has one fixed
 * message, and the hook holds the current message as state.
 */
module TimedMessage {

  datatype TimeTheme = Morning | Afternoon | Evening

  datatype Message = Message(title: string, body: string, theme: TimeTheme, colors: seq<string>)

  /** The range of `Date.prototype.getHours`. */
  type Hour = h: int | 0 <= h < 24

  /** A CSS colour written as `#` followed by six hexadecimal digits. */
  predicate IsHexColor(c: string) {
    |c| == 7 && c[0] == '#' &&
    forall k :: 1 <= k < 7 ==> IsHexDigit(c[k])
  }

  predicate IsHexDigit(ch: char) {
    ('0' <= ch <= '9') || ('a' <= ch <= 'f')
  }

  /** The three entries of the fixed `messages` table. */
  const MorningMessage := Message(
    "The Dawn of Us",
    "Every day starts perfectly because of you. My life changed the moment we met, and I'm grateful for every sunrise we share together.",
    Morning, ["#f59e0b", "#fbbf24", "#d97706"])
  const AfternoonMessage := Message(
    "Our World Today",
    "You're the gravity that keeps my world together. I love the life we've built, our home, and the beautiful partnership we share every single day.",
    Afternoon, ["#ec4899", "#d946ef", "#8b5cf6"])
  const EveningMessage := Message(
    "My Forever",
    "You are the love of my life, now and always. As the stars come out, I'm reminded that you are the brightest light in my universe.",
    Evening, ["#3730a3", "#4f46e5", "#fbbf24"])

  /** The `messages` table, looked up by theme. */
  function MessageFor(t: TimeTheme): (m: Message)
    ensures m.theme == t
    ensures |m.colors| == 3
    ensures forall k :: 0 <= k < |m.colors| ==> IsHexColor(m.colors[k])
  {
    match t
    case Morning => MorningMessage
    case Afternoon => AfternoonMessage
    case Evening => EveningMessage
  }

  /** A message that is one of the three entries of the table. */
  predicate IsTableMessage(m: Message) {
    m == MessageFor(m.theme)
  }

  /** The hour classification: morning from 5 to 11, afternoon from 12 to 17, evening otherwise. */
  function ThemeOf(hour: Hour): TimeTheme {
    if 5 <= hour < 12 then Morning
    else if 12 <= hour < 18 then Afternoon
    else Evening
  }

  /** An independent reference: the theme of each hour of the day, written out hour by hour. */
  const HourTable: seq<TimeTheme> :=
    [ Evening, Evening, Evening, Evening, Evening,                 //  0 ..  4
      Morning, Morning, Morning, Morning, Morning, Morning, Morning, //  5 .. 11
      Afternoon, Afternoon, Afternoon, Afternoon, Afternoon, Afternoon, // 12 .. 17
      Evening, Evening, Evening, Evening, Evening, Evening ]       // 18 .. 23

  /** The next state of the hook after one evaluation at `hour`: the table entry of the classified theme. */
  function Tick(current: Message, hour: Hour): (next: Message)
    ensures next.theme == ThemeOf(hour)
    ensures IsTableMessage(next)
  {
    MessageFor(ThemeOf(hour))
  }

  // ---- Properties of the classification --------------------------------

  lemma ClassificationAgreesWithTable(hour: Hour)
    ensures |HourTable| == 24
    ensures ThemeOf(hour) == HourTable[hour]
  {
  }

  /** Every hour lies in exactly one of the three windows, and gets that window's theme. */
  lemma ClassificationIsTotal(hour: Hour)
    ensures ThemeOf(hour) == Morning <==> 5 <= hour <= 11
    ensures ThemeOf(hour) == Afternoon <==> 12 <= hour <= 17
    ensures ThemeOf(hour) == Evening <==> hour <= 4 || hour >= 18
  {
  }

  /** The boundary hours, on both sides of each switch. */
  lemma ClassificationBoundaries()
    ensures ThemeOf(4) == Evening && ThemeOf(5) == Morning
    ensures ThemeOf(11) == Morning && ThemeOf(12) == Afternoon
    ensures ThemeOf(17) == Afternoon && ThemeOf(18) == Evening
    ensures ThemeOf(0) == Evening && ThemeOf(23) == Evening
  {
  }

  // ---- Properties of the table -----------------------------------------

  /** Distinct themes have distinct messages, so the table is a bijection between themes and messages. */
  lemma TableIsInjective(s: TimeTheme, t: TimeTheme)
    ensures MessageFor(s) == MessageFor(t) <==> s == t
  {
  }

  /** The message stored after an update has the theme the hour was classified into. */
  lemma StoredThemeIsClassifiedTheme(current: Message, hour: Hour)
    ensures Tick(current, hour) == MessageFor(ThemeOf(hour))
    ensures Tick(current, hour).theme == HourTable[hour]
  {
  }

  /** Two updates at the same hour leave the same state as one. */
  lemma TickIsIdempotent(current: Message, hour: Hour)
    ensures Tick(Tick(current, hour), hour) == Tick(current, hour)
  {
  }

  /** An update replaces a table message by a different one exactly when the theme of the hour differs. */
  lemma TickChangesIffThemeChanges(current: Message, hour: Hour)
    requires IsTableMessage(current)
    ensures Tick(current, hour) != current <==> current.theme != ThemeOf(hour)
  {
  }

  // ---- The hook's state --------------------------------------------------

  /** The state the hook keeps: `currentMessage`, replaced on every evaluation. */
  class MessageSelector {
    var current: Message

    /** Before the first evaluation the state is the morning message. */
    constructor ()
      ensures current == MessageFor(Morning)
      ensures IsTableMessage(current)
    {
      current := MessageFor(Morning);
    }

    /** One evaluation of `updateMessage` with the clock reading `hour`. */
    method Update(hour: Hour)
      modifies this
      ensures current == Tick(old(current), hour)
      ensures current.theme == ThemeOf(hour) && IsTableMessage(current)
    {
      var theme := Evening;
      if 5 <= hour && hour < 12 {
        theme := Morning;
      } else if 12 <= hour && hour < 18 {
        theme := Afternoon;
      }
      current := MessageFor(theme);
    }
  }

  /** Mounting the hook: the initial state followed by the immediate first evaluation. */
  method Mount(hour: Hour) returns (s: MessageSelector)
    ensures fresh(s)
    ensures s.current == MessageFor(ThemeOf(hour))
  {
    s := new MessageSelector();
    s.Update(hour);
  }
}

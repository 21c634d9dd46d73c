/** The text reveal: `typewriter`, `startTextAnimation` and
    `resetTextAnimation`, script.js. Each panel has one stored interval
    handle; a reveal tick appends one character (a newline as `<br>`), and
    the tick after the last character stops the interval and runs the
    completion. The delayed starts (the timeline's 2 s call and the 0.5 s
    timeout) are pending counters: nothing here cancels them. */
module Typewriter {
  import opened Common
  import opened Timers

  const LeftDuration: real := 5000.0
  const RightDuration: real := 6000.0

  /** One panel: its content element's HTML, its `hide-text` and
      `start-typing` classes, whether its bottom border was reset to
      transparent, and whether its container's opacity is 1. */
  datatype PanelView = PanelView(html: string, hidden: bool, typing: bool, caretCleared: bool, shown: bool)

  datatype Text = Text(
    present: bool,                            // both content elements exist
    leftText: string, rightText: string,      // trimmed texts read at construction
    left: PanelView, right: PanelView,
    leftSlot: Option<nat>, rightSlot: Option<nat>,  // leftTypingInterval, rightTypingInterval
    leftDue: nat,                             // pending calls that start the left reveal
    rightDue: nat)                            // pending calls that start the right reveal

  datatype Reveal = Reveal(text: Text, timers: Timers)

  function Piece(c: char): string
  {
    if c == '\n' then "<br>" else [c]
  }

  /** The HTML a full reveal of `s` produces. */
  function Render(s: string): string
  {
    if |s| == 0 then ""
    else
      assert s == s[..|s| - 1] + [s[|s| - 1]];
      Render(s[..|s| - 1]) + Piece(s[|s| - 1])
  }

  /** A full reveal of `s` is the previous characters' HTML plus the last
      character's. */
  lemma RenderLast(s: string)
    requires |s| > 0
    ensures Render(s) == Render(s[..|s| - 1]) + Piece(s[|s| - 1])
  {
  }

  /** Rendered text holds no newline: each one became `<br>`. */
  lemma {:induction false} RenderHasNoNewline(s: string)
    ensures '\n' !in Render(s)
    decreases |s|
  {
    if |s| > 0 {
      var init := s[..|s| - 1];
      RenderHasNoNewline(init);
      RenderLast(s);
      var piece := Piece(s[|s| - 1]);
      assert '\n' !in piece;
      assert '\n' !in Render(init) + piece;
    }
  }

  /** A text without newlines is shown exactly as it is. */
  lemma {:induction false} RenderPlainText(s: string)
    requires '\n' !in s
    ensures Render(s) == s
    decreases |s|
  {
    if |s| > 0 {
      var init := s[..|s| - 1];
      RenderPlainText(init);
      RenderLast(s);
      assert s == init + [s[|s| - 1]];
    }
  }

  /** Rendering distributes over concatenation. */
  lemma {:induction false} RenderAppend(a: string, b: string)
    ensures Render(a + b) == Render(a) + Render(b)
    decreases |b|
  {
    if |b| > 0 {
      var b' := b[..|b| - 1];
      assert (a + b)[..|a + b| - 1] == a + b';
      assert (a + b)[|a + b| - 1] == b[|b| - 1];
      RenderAppend(a, b');
    } else {
      assert a + b == a;
    }
  }

  function View(t: Text, p: Panel): PanelView
  {
    if p == Left then t.left else t.right
  }

  function WithView(t: Text, p: Panel, v: PanelView): Text
  {
    if p == Left then t.(left := v) else t.(right := v)
  }

  function Slot(t: Text, p: Panel): Option<nat>
  {
    if p == Left then t.leftSlot else t.rightSlot
  }

  function WithSlot(t: Text, p: Panel, h: Option<nat>): Text
  {
    if p == Left then t.(leftSlot := h) else t.(rightSlot := h)
  }

  function Other(p: Panel): Panel
  {
    if p == Left then Right else Left
  }

  /** A stored handle was handed out already, and while it is live it is
      that panel's typing interval. */
  predicate SlotOk(s: Reveal, p: Panel)
  {
    var slot := Slot(s.text, p);
    slot.Some? ==>
      && slot.value < s.timers.next
      && (slot.value in s.timers.live ==>
            s.timers.live[slot.value].Typing? && s.timers.live[slot.value].panel == p)
  }

  /** Every live typing interval is the one stored in its panel's slot, so
      each panel has at most one. */
  predicate Tracked(s: Reveal)
  {
    && Valid(s.timers)
    && SlotOk(s, Left) && SlotOk(s, Right)
    && forall h :: h in s.timers.live && s.timers.live[h].Typing? ==>
         && Slot(s.text, s.timers.live[h].panel) == Some(h)
         && s.timers.live[h].index <= |s.timers.live[h].text|
  }

  /** The consequence that matters: two live typing intervals of one panel
      are the same interval. */
  lemma OneLivePerPanel(s: Reveal, g: nat, h: nat)
    requires Tracked(s)
    requires g in s.timers.live && s.timers.live[g].Typing?
    requires h in s.timers.live && s.timers.live[h].Typing?
    requires s.timers.live[g].panel == s.timers.live[h].panel
    ensures g == h
  {
  }

  /** Timer changes that touch no typing interval keep the slots tracked. */
  lemma TrackedOtherTimers(s: Reveal, t2: Timers)
    requires Tracked(s) && Valid(t2) && t2.next >= s.timers.next
    requires forall h :: h in t2.live ==>
      (h in s.timers.live && t2.live[h] == s.timers.live[h]) || (h >= s.timers.next && !t2.live[h].Typing?)
    ensures Tracked(Reveal(s.text, t2))
  {
  }

  /** An `onComplete` callback run. */
  function Complete(t: Text, c: Completion): (r: Text)
    ensures r.rightDue == t.rightDue + (if c == ScheduleRight then 1 else 0)
    ensures r.(rightDue := t.rightDue) == t
  {
    if c == ScheduleRight then t.(rightDue := t.rightDue + 1) else t
  }

  /** `typewriter(element, text, duration, onComplete)` on panel `p`. An
      empty text only runs the completion. Otherwise the panel is cleared,
      its previously stored interval is stopped, and a fresh interval with
      period `duration / |text|` is started and stored; the other panel and
      every other interval are left alone. */
  function Typewrite(s: Reveal, p: Panel, text: string, duration: real, onDone: Completion): (r: Reveal)
    requires Tracked(s)
    ensures Tracked(r)
    ensures |text| == 0 ==> r == Reveal(Complete(s.text, onDone), s.timers)
    ensures |text| > 0 ==>
      && Slot(r.text, p).Some?
      && Slot(r.text, p).value !in s.timers.live
      && Slot(r.text, p).value in r.timers.live
      && r.timers.live[Slot(r.text, p).value] == Typing(p, text, 0, duration / |text| as real, onDone)
      && View(r.text, p) == View(s.text, p).(html := "", hidden := false, typing := true)
      && (Slot(s.text, p).Some? ==> Slot(s.text, p).value !in r.timers.live)
      && View(r.text, Other(p)) == View(s.text, Other(p))
      && Slot(r.text, Other(p)) == Slot(s.text, Other(p))
      && r.text.leftDue == s.text.leftDue && r.text.rightDue == s.text.rightDue
      && forall g :: g in r.timers.live && g != Slot(r.text, p).value ==>
           g in s.timers.live && r.timers.live[g] == s.timers.live[g]
  {
    if |text| == 0 then Reveal(Complete(s.text, onDone), s.timers)
    else
      var v := View(s.text, p).(html := "", hidden := false, typing := true);
      var cleared := ClearInterval(s.timers, Slot(s.text, p));
      var started := SetInterval(cleared, Typing(p, text, 0, duration / |text| as real, onDone));
      Reveal(WithSlot(WithView(s.text, p, v), p, Some(started.handle)), started.timers)
  }

  /** One firing of interval `h`. A stopped interval, or one that is not a
      typing interval, changes nothing here. */
  function TypingTick(s: Reveal, h: nat): (r: Reveal)
    ensures Tracked(s) ==> Tracked(r)
    ensures r.text.leftSlot == s.text.leftSlot && r.text.rightSlot == s.text.rightSlot
    ensures r.text.leftDue == s.text.leftDue
    ensures r.timers.next == s.timers.next
  {
    if h !in s.timers.live || !s.timers.live[h].Typing? then s
    else
      var task := s.timers.live[h];
      var v := View(s.text, task.panel);
      if task.index < |task.text| then
        Reveal(WithView(s.text, task.panel, v.(html := v.html + Piece(task.text[task.index]))),
               s.timers.(live := s.timers.live[h := task.(index := task.index + 1)]))
      else
        Reveal(Complete(WithView(s.text, task.panel, v.(typing := false, caretCleared := true)), task.onDone),
               ClearInterval(s.timers, Some(h)))
  }

  /** A firing of `h` leaves every other interval as it was. */
  lemma TickLeavesOthers(s: Reveal, h: nat)
    ensures var r := TypingTick(s, h);
      forall g :: g != h ==> (g in r.timers.live <==> g in s.timers.live)
    ensures var r := TypingTick(s, h);
      forall g :: g in r.timers.live && g != h ==> r.timers.live[g] == s.timers.live[g]
  {
  }

  /** `n` firings of interval `h`. */
  function Ticks(s: Reveal, h: nat, n: nat): (r: Reveal)
    ensures Tracked(s) ==> Tracked(r)
    decreases n
  {
    if n == 0 then s else Ticks(TypingTick(s, h), h, n - 1)
  }

  /** One firing while characters remain. */
  lemma TickAppends(s: Reveal, h: nat)
    requires h in s.timers.live && s.timers.live[h].Typing?
    requires s.timers.live[h].index < |s.timers.live[h].text|
    ensures var task := s.timers.live[h]; var r := TypingTick(s, h);
      && h in r.timers.live
      && r.timers.live[h] == task.(index := task.index + 1)
      && View(r.text, task.panel).html == View(s.text, task.panel).html + Piece(task.text[task.index])
      && r.text.rightDue == s.text.rightDue
  {
  }

  /** The firing after the last character. */
  lemma TickFinishes(s: Reveal, h: nat)
    requires h in s.timers.live && s.timers.live[h].Typing?
    requires s.timers.live[h].index == |s.timers.live[h].text|
    ensures var task := s.timers.live[h]; var r := TypingTick(s, h);
      && h !in r.timers.live
      && View(r.text, task.panel).html == View(s.text, task.panel).html
      && !View(r.text, task.panel).typing
      && r.text.rightDue == s.text.rightDue + (if task.onDone == ScheduleRight then 1 else 0)
  {
  }

  /** Rendering one more character appends that character's HTML. */
  lemma RenderStep(text: string, i: nat)
    requires i < |text|
    ensures Render(text[..i + 1]) == Render(text[..i]) + Piece(text[i])
  {
    assert text[..i + 1] == text[..i] + [text[i]];
    RenderAppend(text[..i], [text[i]]);
    assert [text[i]][..0] == [];
  }

  /** Interval `h` runs `task` at character `k`, and the panel shows the
      first `k` characters rendered. */
  predicate InStep(r: Reveal, h: nat, task: Task, k: nat)
  {
    && task.Typing? && k <= |task.text|
    && h in r.timers.live && r.timers.live[h] == task.(index := k)
    && View(r.text, task.panel).html == Render(task.text[..k])
  }

  /** One firing of a reveal that is in step with its text stays in step. */
  lemma ProgressStep(s: Reveal, h: nat, task: Task, k: nat)
    requires InStep(s, h, task, k) && k < |task.text|
    ensures InStep(TypingTick(s, h), h, task, k + 1)
    ensures TypingTick(s, h).text.rightDue == s.text.rightDue
  {
    TickAppends(s, h);
    RenderStep(task.text, k);
  }

  /** While characters remain, each firing appends the next character's
      HTML and leaves the interval running. */
  lemma {:induction false} RevealProgress(s: Reveal, h: nat, task: Task, k: nat, n: nat)
    requires InStep(s, h, task, k) && k + n <= |task.text|
    ensures InStep(Ticks(s, h, n), h, task, k + n)
    ensures Ticks(s, h, n).text.rightDue == s.text.rightDue
    decreases n
  {
    if n > 0 {
      var s1 := TypingTick(s, h);
      ProgressStep(s, h, task, k);
      RevealProgress(s1, h, task, k + 1, n - 1);
      assert Ticks(s, h, n) == Ticks(s1, h, n - 1);
    }
  }

  /** A non-empty `typewriter` call starts its interval at character 0
      with an empty panel. */
  lemma RevealStarts(s: Reveal, p: Panel, text: string, duration: real, onDone: Completion)
    requires Tracked(s) && |text| > 0
    ensures var r := Typewrite(s, p, text, duration, onDone);
      InStep(r, Slot(r.text, p).value, Typing(p, text, 0, duration / |text| as real, onDone), 0)
  {
    assert text[..0] == [];
  }

  /** The firing after the last character stops the interval and runs the
      completion; a further firing does nothing. */
  lemma RevealEnds(k: Reveal, h: nat, task: Task)
    requires task.Typing? && InStep(k, h, task, |task.text|)
    ensures var fin := TypingTick(k, h);
      && h !in fin.timers.live
      && View(fin.text, task.panel).html == Render(task.text)
      && !View(fin.text, task.panel).typing
      && fin.text.rightDue == k.text.rightDue + (if task.onDone == ScheduleRight then 1 else 0)
      && TypingTick(fin, h) == fin
  {
    assert task.text[..|task.text|] == task.text;
    TickFinishes(k, h);
  }

  /** From character 0 of a non-empty text: after K firings the panel
      shows the whole text rendered and the interval still runs; the next
      firing ends it and runs the completion once; later firings do
      nothing. */
  lemma RevealFromStart(r: Reveal, h: nat, task: Task)
    requires task.Typing? && |task.text| > 0 && InStep(r, h, task, 0)
    ensures var n := |task.text|;
      && View(Ticks(r, h, n).text, task.panel).html == Render(task.text)
      && h in Ticks(r, h, n).timers.live
      && var fin := Ticks(r, h, n + 1);
         && h !in fin.timers.live
         && View(fin.text, task.panel).html == Render(task.text)
         && !View(fin.text, task.panel).typing
         && fin.text.rightDue == r.text.rightDue + (if task.onDone == ScheduleRight then 1 else 0)
         && Ticks(r, h, n + 2) == fin
  {
    var n := |task.text|;
    RevealProgress(r, h, task, 0, n);
    assert task.text[..n] == task.text;
    RevealEnds(Ticks(r, h, n), h, task);
    TicksSplit(r, h, n);
    TicksSplit(r, h, n + 1);
  }

  /** A reveal of a non-empty text of length K: after K firings the panel
      holds the text with every newline as `<br>`; the next firing stops the
      interval, turns the caret off and runs the completion exactly once;
      later firings change nothing. */
  lemma RevealSpellsText(s: Reveal, p: Panel, text: string, duration: real, onDone: Completion)
    requires Tracked(s) && |text| > 0
    ensures var r := Typewrite(s, p, text, duration, onDone);
      var h := Slot(r.text, p).value;
      && r.timers.live[h].period == duration / |text| as real
      && View(Ticks(r, h, |text|).text, p).html == Render(text)
      && h in Ticks(r, h, |text|).timers.live
      && var fin := Ticks(r, h, |text| + 1);
         && h !in fin.timers.live
         && View(fin.text, p).html == Render(text)
         && !View(fin.text, p).typing
         && fin.text.rightDue == s.text.rightDue + (if onDone == ScheduleRight then 1 else 0)
         && Ticks(r, h, |text| + 2) == fin
  {
    var r := Typewrite(s, p, text, duration, onDone);
    var h := Slot(r.text, p).value;
    var task := Typing(p, text, 0, duration / |text| as real, onDone);
    RevealStarts(s, p, text, duration, onDone);
    RevealFromStart(r, h, task);
  }

  lemma {:induction false} TicksSplit(s: Reveal, h: nat, n: nat)
    ensures Ticks(s, h, n + 1) == TypingTick(Ticks(s, h, n), h)
    decreases n
  {
    if n > 0 {
      TicksSplit(TypingTick(s, h), h, n - 1);
    }
  }

  /** `startTextAnimation`: without both panels nothing happens; otherwise
      both panels are emptied and unhidden, the left container is shown,
      and one more left reveal becomes due. Intervals are not touched. */
  function StartText(t: Text): (r: Text)
    ensures !t.present ==> r == t
    ensures t.present ==>
      && r.leftDue == t.leftDue + 1 && r.rightDue == t.rightDue
      && r.left.html == "" && r.right.html == ""
      && !r.left.hidden && !r.right.hidden && r.left.shown
      && r.leftSlot == t.leftSlot && r.rightSlot == t.rightSlot
  {
    if !t.present then t
    else
      t.(left := t.left.(shown := true, hidden := false, html := ""),
         right := t.right.(hidden := false, html := ""),
         leftDue := t.leftDue + 1)
  }

  /** The timeline's delayed call: the left reveal of the stored text over
      5 s, whose completion schedules the right reveal. An empty text runs
      that completion at once. */
  function LeftDueFires(s: Reveal): (r: Reveal)
    requires Tracked(s)
    ensures Tracked(r)
    ensures s.text.leftDue == 0 ==> r == s
    ensures s.text.leftDue > 0 ==> r.text.leftDue == s.text.leftDue - 1
    ensures s.text.leftDue > 0 && |s.text.leftText| == 0 ==>
      r.text.rightDue == s.text.rightDue + 1 && r.timers == s.timers
    ensures s.text.leftDue > 0 && |s.text.leftText| > 0 ==>
      && r.text.rightDue == s.text.rightDue
      && Slot(r.text, Left).Some? && Slot(r.text, Left).value in r.timers.live
      && r.timers.live[Slot(r.text, Left).value]
         == Typing(Left, s.text.leftText, 0, LeftDuration / |s.text.leftText| as real, ScheduleRight)
  {
    if s.text.leftDue == 0 then s
    else
      var s1 := s.(text := s.text.(leftDue := s.text.leftDue - 1));
      Typewrite(s1, Left, s.text.leftText, LeftDuration, ScheduleRight)
  }

  /** The half-second timeout: show the right container and reveal the
      stored right text over 6 s, with no completion. */
  function RightDueFires(s: Reveal): (r: Reveal)
    requires Tracked(s)
    ensures Tracked(r)
    ensures s.text.rightDue == 0 ==> r == s
    ensures s.text.rightDue > 0 ==>
      r.text.rightDue == s.text.rightDue - 1 && r.text.leftDue == s.text.leftDue && r.text.right.shown
    ensures s.text.rightDue > 0 && |s.text.rightText| > 0 ==>
      && Slot(r.text, Right).Some? && Slot(r.text, Right).value in r.timers.live
      && r.timers.live[Slot(r.text, Right).value]
         == Typing(Right, s.text.rightText, 0, RightDuration / |s.text.rightText| as real, NoCallback)
  {
    if s.text.rightDue == 0 then s
    else
      var t1 := s.text.(rightDue := s.text.rightDue - 1, right := s.text.right.(shown := true));
      Typewrite(s.(text := t1), Right, s.text.rightText, RightDuration, NoCallback)
  }

  function Cleared(v: PanelView): PanelView
  {
    v.(shown := false, hidden := true, typing := false, html := "", caretCleared := true)
  }

  /** `resetTextAnimation`: both stored intervals are stopped, which stops
      every live typing interval and nothing else; with both panels present
      they are emptied and hidden. The pending delayed starts are NOT
      cancelled, and the stored handles stay as they were. */
  function ResetText(s: Reveal): (r: Reveal)
    requires Tracked(s)
    ensures Tracked(r)
    ensures forall h :: h in r.timers.live <==> h in s.timers.live && !s.timers.live[h].Typing?
    ensures forall h :: h in r.timers.live ==> r.timers.live[h] == s.timers.live[h]
    ensures r.timers.next == s.timers.next
    ensures r.text.leftDue == s.text.leftDue && r.text.rightDue == s.text.rightDue
    ensures r.text.leftSlot == s.text.leftSlot && r.text.rightSlot == s.text.rightSlot
    ensures s.text.present ==> r.text.left == Cleared(s.text.left) && r.text.right == Cleared(s.text.right)
    ensures !s.text.present ==> r.text == s.text
  {
    var timers := ClearInterval(ClearInterval(s.timers, s.text.leftSlot), s.text.rightSlot);
    if !s.text.present then Reveal(s.text, timers)
    else Reveal(s.text.(left := Cleared(s.text.left), right := Cleared(s.text.right)), timers)
  }
}

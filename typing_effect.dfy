/**
 * The hero's typing effect (`initTypingEffect` in js/modern.js): a list of
 * phrases is typed one character at a time, held, deleted one character at
 * a time, and the next phrase follows. Each `type()` call is one step of a
 * small state machine over `(textIndex, charIndex, isDeleting)`; it sets the
 * element's text and schedules the next call after a delay, which the model
 * returns instead of calling `setTimeout`.
 */
module TypingEffect {
  import opened Wrappers

  const TypingSpeed: nat := 100
  const DeletingSpeed: nat := 50
  const PauseTime: nat := 2000
  const NextTextDelay: nat := 500

  /** The phrases used when the element has no `data-texts` attribute. */
  const DefaultTexts: seq<string> := ["Sonorização", "Iluminação", "Telões", "Estruturas"]

  /** JavaScript's `s.split(sep)` for a one-character separator. */
  function Split(s: string, sep: char): (parts: seq<string>)
    ensures |parts| >= 1
    ensures forall k :: 0 <= k < |parts| ==> sep !in parts[k]
  {
    if s == [] then [[]]
    else
      var rest := Split(s[1..], sep);
      if s[0] == sep then [[]] + rest
      else [[s[0]] + rest[0]] + rest[1..]
  }

  /** `parts.join(sep)`: the inverse of `Split`. */
  function Join(parts: seq<string>, sep: char): string
    requires |parts| >= 1
  {
    if |parts| == 1 then parts[0] else parts[0] + [sep] + Join(parts[1..], sep)
  }

  /** Splitting loses nothing: joining the parts back gives the attribute text. */
  lemma {:induction false} JoinSplit(s: string, sep: char)
    ensures Join(Split(s, sep), sep) == s
  {
    if s != [] {
      JoinSplit(s[1..], sep);
      var rest := Split(s[1..], sep);
      if s[0] == sep {
        assert ([[]] + rest)[1..] == rest;
      } else {
        var parts := [[s[0]] + rest[0]] + rest[1..];
        if |rest| == 1 {
          assert parts == [[s[0]] + rest[0]];
        } else {
          assert parts[1..] == rest[1..];
          assert Join(rest, sep) == rest[0] + [sep] + Join(rest[1..], sep);
        }
      }
    }
  }

  /** Parts free of the separator come back unchanged from a join and a split. */
  lemma {:induction false} SplitJoin(parts: seq<string>, sep: char)
    requires |parts| >= 1
    requires forall k :: 0 <= k < |parts| ==> sep !in parts[k]
    ensures Split(Join(parts, sep), sep) == parts
    decreases |parts|, |parts[0]|
  {
    if |parts| == 1 {
      SplitPiece(parts[0], sep);
    } else {
      var tail := Join(parts[1..], sep);
      SplitJoin(parts[1..], sep);
      SplitPrefix(parts[0], tail, sep);
      assert [parts[0]] + parts[1..] == parts;
    }
  }

  /** A piece without the separator splits into itself. */
  lemma {:induction false} SplitPiece(w: string, sep: char)
    requires sep !in w
    ensures Split(w, sep) == [w]
  {
    if w != [] {
      assert w[0] in w;
      assert forall c :: c in w[1..] ==> c in w;
      SplitPiece(w[1..], sep);
      assert [w[0]] + w[1..] == w;
    }
  }

  /** A separator-free piece, a separator and a tail: the piece, then the tail's parts. */
  lemma {:induction false} SplitPrefix(w: string, tail: string, sep: char)
    requires sep !in w
    ensures Split(w + [sep] + tail, sep) == [w] + Split(tail, sep)
    decreases |w|
  {
    var s := w + [sep] + tail;
    if w == [] {
      assert s[0] == sep && s[1..] == tail;
    } else {
      assert w[0] in w;
      assert forall c :: c in w[1..] ==> c in w;
      assert s[0] == w[0] && s[1..] == w[1..] + [sep] + tail;
      SplitPrefix(w[1..], tail, sep);
      assert [w[0]] + w[1..] == w;
    }
  }

  /** `element.getAttribute('data-texts')?.split(',') || [...defaults]`. */
  function ChooseTexts(attribute: Option<string>): (texts: seq<string>)
    ensures |texts| >= 1
    ensures attribute.None? ==> texts == DefaultTexts
    ensures attribute.Some? ==> Join(texts, ',') == attribute.value
    ensures attribute.Some? ==> forall k :: 0 <= k < |texts| ==> ',' !in texts[k]
  {
    match attribute
    case None => DefaultTexts
    case Some(s) => JoinSplit(s, ','); Split(s, ',')
  }

  /** An attribute that is present but empty yields one empty phrase, not the defaults. */
  lemma EmptyAttributeGivesEmptyPhrase()
    ensures ChooseTexts(Some("")) == [""]
  {
  }

  /** JavaScript's `s.substring(0, end)`: an `end` outside the string is clamped to it. */
  function Substring(s: string, end: int): (r: string)
    ensures r <= s
    ensures |r| == if end <= 0 then 0 else if end >= |s| then |s| else end
  {
    if end <= 0 then [] else if end >= |s| then s else s[..end]
  }

  /** The closure variables of `initTypingEffect` that `type()` changes. */
  datatype Cursor = Cursor(textIndex: int, charIndex: int, isDeleting: bool)

  /** One call of `type()`: the new cursor, the element's new text and the delay before the next call. */
  datatype Tick = Tick(next: Cursor, shown: string, delay: nat)

  /**
   * `type()` (js/modern.js:455-478) on the phrase `texts[c.textIndex]`,
   * including for an empty phrase and for inconsistent cursors, as written.
   */
  function Step(texts: seq<string>, c: Cursor): (r: Tick)
    requires 0 <= c.textIndex < |texts|
    ensures 0 <= r.next.textIndex < |texts|
    ensures r.shown <= texts[c.textIndex]
    ensures r.next.charIndex == if c.isDeleting then c.charIndex - 1 else c.charIndex + 1
    // `isDeleting` becomes true exactly when typing reaches the phrase's length, after a pause.
    ensures !c.isDeleting ==> (r.next.isDeleting <==> c.charIndex + 1 == |texts[c.textIndex]|)
    ensures !c.isDeleting ==> (r.delay == if r.next.isDeleting then PauseTime else TypingSpeed)
    // It becomes false exactly when deleting reaches 0, and only then the next phrase is chosen.
    ensures c.isDeleting ==> (!r.next.isDeleting <==> c.charIndex == 1)
    ensures c.isDeleting ==> (r.delay == if r.next.isDeleting then DeletingSpeed else NextTextDelay)
    ensures r.next.textIndex
            == if c.isDeleting && c.charIndex == 1 then (c.textIndex + 1) % |texts| else c.textIndex
  {
    var current := texts[c.textIndex];
    var charIndex := if c.isDeleting then c.charIndex - 1 else c.charIndex + 1;
    var shown := Substring(current, charIndex);
    var timeout := if c.isDeleting then DeletingSpeed else TypingSpeed;
    if !c.isDeleting && charIndex == |current| then
      Tick(Cursor(c.textIndex, charIndex, true), shown, PauseTime)
    else if c.isDeleting && charIndex == 0 then
      Tick(Cursor((c.textIndex + 1) % |texts|, charIndex, false), shown, NextTextDelay)
    else
      Tick(Cursor(c.textIndex, charIndex, c.isDeleting), shown, timeout)
  }

  predicate AllNonEmpty(texts: seq<string>) {
    forall k :: 0 <= k < |texts| ==> |texts[k]| > 0
  }

  /**
   * The cursor's invariant: the phrase index is in range; while typing,
   * fewer characters than the phrase has are shown; while deleting, at
   * least one and at most all of them.
   */
  predicate Consistent(texts: seq<string>, c: Cursor) {
    && 0 <= c.textIndex < |texts|
    && (if c.isDeleting then 1 <= c.charIndex <= |texts[c.textIndex]|
        else 0 <= c.charIndex < |texts[c.textIndex]|)
  }

  /**
   * With no empty phrase, every step keeps the cursor consistent, and the
   * element then shows exactly the first `charIndex` characters of the
   * current phrase.
   */
  lemma StepPreserves(texts: seq<string>, c: Cursor)
    requires AllNonEmpty(texts)
    requires Consistent(texts, c)
    ensures Consistent(texts, Step(texts, c).next)
    ensures 0 <= Step(texts, c).next.charIndex <= |texts[Step(texts, c).next.textIndex]|
    ensures Step(texts, c).shown == texts[Step(texts, c).next.textIndex][..Step(texts, c).next.charIndex]
  {
    var r := Step(texts, c);
    if c.isDeleting && c.charIndex == 1 {
      assert |texts[r.next.textIndex]| > 0;
    }
  }

  /** `k` successive calls of `type()`. */
  function Run(texts: seq<string>, c: Cursor, k: nat): (e: Cursor)
    requires 0 <= c.textIndex < |texts|
    ensures 0 <= e.textIndex < |texts|
    decreases k
  {
    if k == 0 then c else Run(texts, Step(texts, c).next, k - 1)
  }

  lemma {:induction false} RunAdd(texts: seq<string>, c: Cursor, i: nat, j: nat)
    requires 0 <= c.textIndex < |texts|
    ensures Run(texts, c, i + j) == Run(texts, Run(texts, c, i), j)
    decreases i
  {
    if i > 0 {
      RunAdd(texts, Step(texts, c).next, i - 1, j);
    }
  }

  /** Typing from `j` characters reaches the whole phrase and turns to deleting. */
  lemma {:induction false} RunTyping(texts: seq<string>, t: int, j: nat)
    requires 0 <= t < |texts| && j < |texts[t]|
    ensures Run(texts, Cursor(t, j, false), |texts[t]| - j) == Cursor(t, |texts[t]|, true)
    decreases |texts[t]| - j
  {
    if j + 1 < |texts[t]| {
      RunTyping(texts, t, j + 1);
    }
  }

  /** Deleting from `j` characters empties the element and moves to the next phrase. */
  lemma {:induction false} RunDeleting(texts: seq<string>, t: int, j: nat)
    requires 0 <= t < |texts| && 1 <= j
    ensures Run(texts, Cursor(t, j, true), j) == Cursor((t + 1) % |texts|, 0, false)
    decreases j
  {
    if j > 1 {
      RunDeleting(texts, t, j - 1);
    }
  }

  /**
   * A whole cycle: a non-empty phrase of length `L` is typed in `L` steps
   * and deleted in `L` more, after which the next phrase (cyclically) starts
   * from nothing.
   */
  lemma PhraseCycle(texts: seq<string>, t: int)
    requires 0 <= t < |texts| && |texts[t]| > 0
    ensures Run(texts, Cursor(t, 0, false), 2 * |texts[t]|) == Cursor((t + 1) % |texts|, 0, false)
  {
    var n := |texts[t]|;
    RunAdd(texts, Cursor(t, 0, false), n, n);
    RunTyping(texts, t, 0);
    RunDeleting(texts, t, n);
  }

  /**
   * An empty phrase (from `split` on an attribute such as "a,,b") is never
   * left: typing counts `charIndex` up past its length forever, showing
   * nothing, and the phrase index never changes.
   */
  lemma {:induction false} EmptyPhraseStalls(texts: seq<string>, t: int, j: nat, k: nat)
    requires 0 <= t < |texts| && texts[t] == []
    ensures Run(texts, Cursor(t, j, false), k) == Cursor(t, j + k, false)
    ensures Step(texts, Cursor(t, j, false)) == Tick(Cursor(t, j + 1, false), [], TypingSpeed)
    decreases k
  {
    if k > 0 {
      EmptyPhraseStalls(texts, t, j + 1, k - 1);
    }
  }

  /** The typing effect's state: the closure variables and the element's text. */
  class Typewriter {
    const texts: seq<string>
    var textIndex: int
    var charIndex: int
    var isDeleting: bool
    var shown: string

    function State(): Cursor
      reads this
    {
      Cursor(textIndex, charIndex, isDeleting)
    }

    /** The set-up of `initTypingEffect`: the phrases, and the cursor at the start. */
    constructor (attribute: Option<string>, content: string)
      ensures texts == ChooseTexts(attribute)
      ensures State() == Cursor(0, 0, false) && shown == content
      ensures |texts| >= 1 && (|texts[0]| > 0 ==> Consistent(texts, State()))
    {
      texts := ChooseTexts(attribute);
      textIndex := 0;
      charIndex := 0;
      isDeleting := false;
      shown := content;
    }

    /** `type()`: one step; the delay is what the source passes to `setTimeout`. */
    method Type() returns (delay: nat)
      requires 0 <= textIndex < |texts|
      modifies this
      ensures 0 <= textIndex < |texts|
      ensures Tick(State(), shown, delay) == Step(texts, old(State()))
    {
      var currentText := texts[textIndex];

      if isDeleting {
        shown := Substring(currentText, charIndex - 1);
        charIndex := charIndex - 1;
      } else {
        shown := Substring(currentText, charIndex + 1);
        charIndex := charIndex + 1;
      }

      delay := if isDeleting then DeletingSpeed else TypingSpeed;

      if !isDeleting && charIndex == |currentText| {
        delay := PauseTime;
        isDeleting := true;
      } else if isDeleting && charIndex == 0 {
        isDeleting := false;
        textIndex := (textIndex + 1) % |texts|;
        delay := NextTextDelay;
      }
    }
  }
}

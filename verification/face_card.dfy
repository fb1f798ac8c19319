/**
 * The interactive "Will you be my Valentine?" card: a No button that jumps to a
 * new place whenever it is approached, a sadness level that rises with each
 * jump up to a cap, and a Yes button that accepts and asks the server, once it
 * has answered with success, to send the requestor an SMS.
 */
module FaceCard {
  import opened Options

  /** The highest sadness level; the expression table has one entry per level 0..MaxSadness. */
  const MaxSadness: int := 5

  /** The distance, in pixels, the No button keeps from the viewport's top and left edges. */
  const Padding: real := 20.0

  function Min(a: int, b: int): int {
    if a <= b then a else b
  }

  function MaxReal(a: real, b: real): real {
    if a >= b then a else b
  }

  /* ---------------------------------------------------------------------------
   * Escalation
   * ------------------------------------------------------------------------- */

  /** One escalation step, capped at the top of the table. */
  function NextLevel(level: int): (r: int)
    ensures r <= MaxSadness
    ensures level < MaxSadness ==> r == level + 1
    ensures level >= MaxSadness ==> r == MaxSadness
  {
    Min(level + 1, MaxSadness)
  }

  /** The level after `n` successful moves of the No button. */
  function LevelAfter(level: int, n: nat): int
    decreases n
  {
    if n == 0 then level else LevelAfter(NextLevel(level), n - 1)
  }

  /** From any level in range, n moves reach min(level + n, 5): the level never
      decreases and never passes the cap; from 0 it is min(n, 5). */
  lemma {:induction false} LevelAfterMoves(level: int, n: nat)
    requires 0 <= level <= MaxSadness
    ensures LevelAfter(level, n) == Min(level + n, MaxSadness)
    ensures level <= LevelAfter(level, n) <= MaxSadness
    decreases n
  {
    if n > 0 {
      LevelAfterMoves(NextLevel(level), n - 1);
    }
  }

  /* ---------------------------------------------------------------------------
   * Face and prompt
   * ------------------------------------------------------------------------- */

  datatype Mouth = Happy | Neutral | Sad | Sadder | Saddest | Broken

  datatype Expression = Expression(eyes: string, mouth: Mouth)

  /** The face for each sadness level, from smiling to a broken heart. */
  const Expressions: seq<Expression> := [
    Expression("😊", Happy),
    Expression("😐", Neutral),
    Expression("😔", Sad),
    Expression("😢", Sadder),
    Expression("😭", Saddest),
    Expression("💔", Broken)
  ]

  /** `Math.min(level, 5)`: for any level the widget can hold, an index inside the table. */
  function ExpressionIndex(level: int): (i: int)
    requires 0 <= level
    ensures 0 <= i < |Expressions|
    ensures i <= level
    ensures i == level || i == |Expressions| - 1
  {
    Min(level, MaxSadness)
  }

  /** The face shown for a level: the level's own entry, or the last one beyond the table. */
  function FaceExpression(level: int): (e: Expression)
    requires 0 <= level
    ensures level < |Expressions| ==> e == Expressions[level]
    ensures level >= |Expressions| ==> e == Expressions[|Expressions| - 1] && e.mouth == Broken
  {
    Expressions[ExpressionIndex(level)]
  }

  /** The prompt texts for levels 0 to 4, and for 5 and beyond. */
  const Prompts: seq<string> := [
    "Please say yes! 😊",
    "Are you sure? 😐",
    "I'm getting sad... 😔",
    "Please reconsider... 😢",
    "My heart is breaking... 😭",
    "You've broken my heart... 💔"
  ]

  /** The prompt paragraph: six guarded lines, each rendered when its own
      condition on the level holds and rendered as nothing otherwise. */
  function PromptLines(level: int): (lines: seq<string>)
    ensures |lines| <= 1
    ensures forall k | 0 <= k < |lines| :: lines[k] in Prompts
  {
    (if level == 0 then [Prompts[0]] else [])
    + (if level == 1 then [Prompts[1]] else [])
    + (if level == 2 then [Prompts[2]] else [])
    + (if level == 3 then [Prompts[3]] else [])
    + (if level == 4 then [Prompts[4]] else [])
    + (if level >= 5 then [Prompts[5]] else [])
  }

  /** Exactly one prompt line shows for every level the widget can hold: the
      level's own text, or the broken-heart text from 5 on. */
  lemma ExactlyOnePrompt(level: int)
    requires 0 <= level
    ensures PromptLines(level) == [Prompts[ExpressionIndex(level)]]
    ensures level >= MaxSadness ==> PromptLines(level) == ["You've broken my heart... 💔"]
  {
  }

  /* ---------------------------------------------------------------------------
   * Names
   * ------------------------------------------------------------------------- */

  /** JavaScript truthiness of an optional string: present and not empty. */
  predicate Truthy(s: Option<string>) {
    s.Some? && s.value != ""
  }

  /** `name || undefined`: an empty name is sent as absent. */
  function OrUndefined(s: Option<string>): (r: Option<string>)
    ensures r.Some? <==> Truthy(s)
    ensures r.Some? ==> r == s
  {
    if Truthy(s) then s else None
  }

  /** The name the card addresses: the recipient's, or "you" when there is none. */
  function DisplayName(recipientName: Option<string>): (name: string)
    ensures name != ""
    ensures Truthy(recipientName) ==> name == recipientName.value
    ensures !Truthy(recipientName) ==> name == "you"
  {
    if Truthy(recipientName) then recipientName.value else "you"
  }

  const GenericQuestion: string := "Will you be my Valentine?"

  /** The main heading: the requestor's name leads when there is one; otherwise a generic question. */
  function QuestionHeading(requestorName: Option<string>): (heading: string)
    ensures Truthy(requestorName) ==> heading == requestorName.value + " wants to know: 💝"
    ensures !Truthy(requestorName) ==> heading == GenericQuestion + " 💝"
  {
    (if Truthy(requestorName) then requestorName.value + " wants to know:" else GenericQuestion) + " 💝"
  }

  const GenericSuccess: string := "You made me so happy!"

  /** The message after acceptance: names the requestor when there is one. */
  function SuccessMessage(requestorName: Option<string>): (message: string)
    ensures Truthy(requestorName) ==> message == requestorName.value + " will be so happy!"
    ensures !Truthy(requestorName) ==> message == GenericSuccess
  {
    if Truthy(requestorName) then requestorName.value + " will be so happy!" else GenericSuccess
  }

  /* ---------------------------------------------------------------------------
   * Placement of the No button
   * ------------------------------------------------------------------------- */

  datatype Position = Position(x: real, y: real)

  /** One coordinate of a new place: `max(padding, r * (viewport - size - padding))`
      for a draw `0 <= r < 1`. It never falls below the padding, never passes the
      far end of the usable range, and collapses to the padding when that range
      is empty. */
  function Coordinate(viewport: real, size: real, r: real): (c: real)
    requires 0.0 <= r < 1.0
    ensures Padding <= c
    ensures c <= MaxReal(Padding, viewport - size - Padding)
    ensures viewport - size - Padding <= Padding ==> c == Padding
  {
    var limit := viewport - size - Padding;
    var scaled := r * limit;
    ScaledDraw(r, limit);
    assert limit > 0.0 ==> scaled < limit;
    assert limit <= 0.0 ==> scaled <= 0.0;
    MaxReal(Padding, scaled)
  }

  /** A draw scales the usable range down: below it when it is positive, to at
      most zero when it is not. */
  lemma ScaledDraw(r: real, limit: real)
    requires 0.0 <= r < 1.0
    ensures limit > 0.0 ==> r * limit < limit
    ensures limit <= 0.0 ==> r * limit <= 0.0
  {
    if limit > 0.0 {
      assert (1.0 - r) * limit > 0.0;
    } else {
      assert r * (0.0 - limit) >= 0.0;
    }
  }

  /** A place inside the range, divided by the range, is a draw that yields it. */
  lemma Ratio(target: real, limit: real)
    requires 0.0 <= target < limit
    ensures 0.0 <= target / limit < 1.0
    ensures (target / limit) * limit == target
  {
    var q := target / limit;
    assert q * limit == target;
  }

  /** When the viewport has room for the button and the padding on both sides,
      the button lies wholly inside it, the padding kept on both sides. */
  lemma CoordinateInsideViewport(viewport: real, size: real, r: real)
    requires 0.0 <= r < 1.0
    requires size + 2.0 * Padding <= viewport
    ensures Padding <= Coordinate(viewport, size, r)
    ensures Coordinate(viewport, size, r) + size <= viewport - Padding
  {
  }

  /** Every place in the usable range is reached by some draw, so the range is
      covered; draws below padding / limit all land on the padding itself. */
  lemma CoordinateCoversRange(viewport: real, size: real, target: real)
    requires Padding <= target < viewport - size - Padding
    ensures 0.0 <= target / (viewport - size - Padding) < 1.0
    ensures Coordinate(viewport, size, target / (viewport - size - Padding)) == target
  {
    Ratio(target, viewport - size - Padding);
  }

  /* ---------------------------------------------------------------------------
   * The No button's style
   * ------------------------------------------------------------------------- */

  datatype Positioning = Fixed | Relative
  datatype Offset = Auto | Px(px: real)
  datatype ButtonStyle = ButtonStyle(position: Positioning, left: Offset, top: Offset)

  /** The No button is pinned to its coordinates exactly when it has been
      placed, and sits in the normal flow otherwise. */
  function NoButtonStyle(position: Option<Position>): (style: ButtonStyle)
    ensures style.position == Fixed <==> position.Some?
    ensures position.None? ==> style.left == Auto && style.top == Auto
    ensures position.Some? ==> style.left == Px(position.value.x) && style.top == Px(position.value.y)
  {
    match position
    case Some(p) => ButtonStyle(Fixed, Px(p.x), Px(p.y))
    case None => ButtonStyle(Relative, Auto, Auto)
  }

  /* ---------------------------------------------------------------------------
   * The widget
   * ------------------------------------------------------------------------- */

  /** How the SMS request ended: a success response, a failure response, or a thrown error. */
  datatype DispatchOutcome = Ok | NotOk | Threw

  /** The body posted to the SMS endpoint. */
  datatype SmsRequest = SmsRequest(phoneNumber: string, requestorName: Option<string>, recipientName: Option<string>)

  class InteractiveFaceCard {
    const recipientName: Option<string>
    const requestorName: Option<string>
    const phoneNumber: Option<string>

    var sadnessLevel: int
    var noButtonPosition: Option<Position>
    var accepted: bool
    var smsSent: bool

    /** The level stays in the table, the button has been placed exactly when
        the level has risen, any place keeps the padding, and an SMS has been
        sent only after acceptance and only to a phone number that was given. */
    ghost predicate Valid()
      reads this
    {
      0 <= sadnessLevel <= MaxSadness
      && (noButtonPosition.Some? <==> sadnessLevel > 0)
      && (noButtonPosition.Some? ==> Padding <= noButtonPosition.value.x && Padding <= noButtonPosition.value.y)
      && (smsSent ==> accepted && Truthy(phoneNumber))
    }

    /** The question view, with its Yes and No buttons, is rendered only while
        the card is not accepted; once accepted, the celebration view replaces it. */
    predicate ButtonsShown()
      reads this
      ensures accepted ==> !ButtonsShown()
      ensures Valid() && ButtonsShown() ==> !smsSent
    {
      !accepted
    }

    /** The container and No button refs point at elements of the question
        view, so they are attached only when the DOM has them and that view is rendered. */
    predicate RefsAttached(containerPresent: bool, buttonPresent: bool)
      reads this
      ensures RefsAttached(containerPresent, buttonPresent) ==> containerPresent && buttonPresent
      ensures accepted ==> !RefsAttached(containerPresent, buttonPresent)
    {
      containerPresent && buttonPresent && ButtonsShown()
    }

    constructor (recipientName: Option<string>, requestorName: Option<string>, phoneNumber: Option<string>)
      ensures Valid()
      ensures this.recipientName == recipientName && this.requestorName == requestorName
      ensures this.phoneNumber == phoneNumber
      ensures sadnessLevel == 0 && noButtonPosition == None && !accepted && !smsSent
    {
      this.recipientName := recipientName;
      this.requestorName := requestorName;
      this.phoneNumber := phoneNumber;
      sadnessLevel := 0;
      noButtonPosition := None;
      accepted := false;
      smsSent := false;
    }

    /** The No button is approached. Without both refs attached nothing
        happens (in particular after acceptance, when the question view is gone);
        otherwise the button moves to a new place computed from two independent
        draws and the level rises by one, up to the cap. */
    method MoveNoButton(containerPresent: bool, buttonPresent: bool,
                        viewportWidth: real, viewportHeight: real,
                        buttonWidth: real, buttonHeight: real,
                        rx: real, ry: real)
      requires Valid()
      requires 0.0 <= rx < 1.0 && 0.0 <= ry < 1.0
      modifies this`sadnessLevel, this`noButtonPosition
      ensures Valid()
      ensures !old(RefsAttached(containerPresent, buttonPresent)) ==>
        sadnessLevel == old(sadnessLevel) && noButtonPosition == old(noButtonPosition)
      ensures old(RefsAttached(containerPresent, buttonPresent)) ==>
        sadnessLevel == NextLevel(old(sadnessLevel))
        && noButtonPosition == Some(Position(Coordinate(viewportWidth, buttonWidth, rx),
                                             Coordinate(viewportHeight, buttonHeight, ry)))
      ensures old(accepted) ==> sadnessLevel == old(sadnessLevel) && noButtonPosition == old(noButtonPosition)
      ensures old(sadnessLevel) <= sadnessLevel
      ensures old(noButtonPosition).Some? ==> noButtonPosition.Some?
    {
      if !RefsAttached(containerPresent, buttonPresent) {
        return;
      }
      var maxX := viewportWidth - buttonWidth - Padding;
      var maxY := viewportHeight - buttonHeight - Padding;
      var randomX := MaxReal(Padding, rx * maxX);
      var randomY := MaxReal(Padding, ry * maxY);
      assert randomX == Coordinate(viewportWidth, buttonWidth, rx);
      assert randomY == Coordinate(viewportHeight, buttonHeight, ry);
      noButtonPosition := Some(Position(randomX, randomY));
      sadnessLevel := Min(sadnessLevel + 1, MaxSadness);
    }

    /** Yes is clicked. The card is accepted whatever happens next, and the
        buttons are no longer rendered. When a phone number was given and no
        SMS has been sent yet, the request is posted; only a success response
        marks the SMS as sent. */
    method HandleYesClick(outcome: DispatchOutcome) returns (request: Option<SmsRequest>)
      requires Valid()
      modifies this`accepted, this`smsSent
      ensures Valid()
      ensures accepted && !ButtonsShown()
      ensures request.Some? <==> Truthy(phoneNumber) && !old(smsSent)
      ensures request.Some? ==>
        request.value == SmsRequest(phoneNumber.value, OrUndefined(requestorName), OrUndefined(recipientName))
      ensures smsSent <==> old(smsSent) || (request.Some? && outcome == Ok)
    {
      accepted := true;
      request := None;
      if Truthy(phoneNumber) && !smsSent {
        request := Some(SmsRequest(phoneNumber.value, OrUndefined(requestorName), OrUndefined(recipientName)));
        match outcome
        case Ok => smsSent := true;
        case NotOk =>
        case Threw =>
      }
    }
  }

  /* ---------------------------------------------------------------------------
   * Sessions: what a sequence of events does to a fresh card
   * ------------------------------------------------------------------------- */

  /** A fresh card approached once per pair of draws, on a fixed viewport:
      the level is min(N, 5), the button is placed exactly when N > 0, and
      every place keeps the padding. */
  method Engage(recipientName: Option<string>, requestorName: Option<string>, phoneNumber: Option<string>,
                viewportWidth: real, viewportHeight: real, buttonWidth: real, buttonHeight: real,
                draws: seq<(real, real)>)
    returns (level: int, position: Option<Position>)
    requires forall k | 0 <= k < |draws| :: 0.0 <= draws[k].0 < 1.0 && 0.0 <= draws[k].1 < 1.0
    ensures level == Min(|draws|, MaxSadness)
    ensures position.Some? <==> |draws| > 0
    ensures position.Some? ==> Padding <= position.value.x && Padding <= position.value.y
  {
    var card := new InteractiveFaceCard(recipientName, requestorName, phoneNumber);
    var i := 0;
    while i < |draws|
      invariant 0 <= i <= |draws|
      invariant card.Valid() && !card.accepted
      invariant card.sadnessLevel == LevelAfter(0, i)
      invariant card.noButtonPosition.Some? <==> i > 0
    {
      LevelAfterMoves(0, i);
      card.MoveNoButton(true, true, viewportWidth, viewportHeight, buttonWidth, buttonHeight,
                        draws[i].0, draws[i].1);
      LevelAfterStep(i);
      i := i + 1;
    }
    LevelAfterMoves(0, |draws|);
    level, position := card.sadnessLevel, card.noButtonPosition;
  }

  /** One more move after i moves from 0 is i + 1 moves. */
  lemma {:induction false} LevelAfterStep(n: nat)
    ensures LevelAfter(0, n + 1) == NextLevel(LevelAfter(0, n))
  {
    LevelAfterMoves(0, n);
    LevelAfterMoves(0, n + 1);
  }

  /** The Yes handler run twice on a fresh card. After the first run the card
      is accepted and its buttons are no longer rendered, so in the program no
      second click reaches the handler. If it did run again, it would post again
      exactly when the first request did not succeed: the "sent" flag alone does
      not stop a retry. */
  method AcceptTwice(recipientName: Option<string>, requestorName: Option<string>, phoneNumber: Option<string>,
                     first: DispatchOutcome, second: DispatchOutcome)
    returns (firstRequest: Option<SmsRequest>, shownAfterFirst: bool,
             secondRequest: Option<SmsRequest>, accepted: bool, smsSent: bool)
    ensures !shownAfterFirst
    ensures accepted
    ensures firstRequest.Some? <==> Truthy(phoneNumber)
    ensures secondRequest.Some? <==> Truthy(phoneNumber) && first != Ok
    ensures smsSent <==> Truthy(phoneNumber) && (first == Ok || second == Ok)
    ensures firstRequest.Some? ==> firstRequest.value.phoneNumber == phoneNumber.value
  {
    var card := new InteractiveFaceCard(recipientName, requestorName, phoneNumber);
    firstRequest := card.HandleYesClick(first);
    shownAfterFirst := card.ButtonsShown();
    secondRequest := card.HandleYesClick(second);
    accepted, smsSent := card.accepted, card.smsSent;
  }
}

/** The round logic of src/main.cpp: five shapes drawn from the shape set, each
    to be dragged onto its own destination slot; a match marks the shape done,
    and when all five are done the score goes up and a new round is dealt.
    The pointer position, the random choices and the elapsed time are
    parameters; windows, audio and drawing are not modelled. */
module Game {
  import opened Wrappers
  import opened Vectors
  import opened Geometry
  import opened ShapeBuilder
  import opened Permutations

  const NUM_SHAPES: nat := 5
  /** The score wraps once it passes this value. */
  const MAX_SCORE: int := 100

  const ASPECT_RATIO: real := 4.0 / 3.0
  const NORM_HEIGHT: real := 1.0 / ASPECT_RATIO
  /** Half the side of a shape's hit box, in normalised units. */
  const SHAPE_RADIUS: real := (1.0 / NUM_SHAPES as real) * 0.4
  /** Radians per second (M_PI_2). */
  const SHAPE_ROTATION_SPEED: real := PI / 2.0

  /** Source slot i: spread evenly across the upper quarter line. */
  function SrcCenter(i: nat): Vec2
  {
    Vec2((i * 2 + 1) as real / (NUM_SHAPES * 2) as real, NORM_HEIGHT * 1.0 / 4.0)
  }

  /** Destination slot i: the same columns on the lower quarter line. */
  function DstCenter(i: nat): Vec2
  {
    Vec2((i * 2 + 1) as real / (NUM_SHAPES * 2) as real, NORM_HEIGHT * 3.0 / 4.0)
  }

  /** The rotation direction a dice roll in [0, 1) picks. */
  function Rotation(dice: real): (r: real)
    ensures r == 1.0 || r == -1.0
    ensures r == 1.0 <==> dice > 0.5
  {
    if dice > 0.5 then 1.0 else -1.0
  }

  /** The score after a win: one more, back to 1 once it passes MAX_SCORE. */
  function NextScore(score: int): (r: int)
    ensures 0 <= score <= MAX_SCORE ==> 1 <= r <= MAX_SCORE
    ensures score < MAX_SCORE ==> r == score + 1
    ensures score >= MAX_SCORE ==> r == 1
  {
    if score + 1 > MAX_SCORE then 1 else score + 1
  }

  /** SDL_AppIterate's wrap of a shape's angle: below 0 jumps to 2 pi, above
      2 pi jumps to 0. */
  function WrapTheta(theta: real): (r: real)
    ensures 0.0 <= r <= 2.0 * PI
    ensures 0.0 <= theta <= 2.0 * PI ==> r == theta
    ensures r == theta || r == 0.0 || r == 2.0 * PI
  {
    if theta < 0.0 then 2.0 * PI else if theta > 2.0 * PI then 0.0 else theta
  }

  /** A shape's angle is in [0, 2 pi] and it turns one way or the other. */
  predicate Spinning(s: Shape)
  {
    0.0 <= s.theta <= 2.0 * PI && (s.rotationDirection == 1.0 || s.rotationDirection == -1.0)
  }

  /** find_selected_shape's test: the pointer lies strictly inside the screen
      box of half-width SHAPE_RADIUS around the slot centre. */
  predicate InBox(shader: ShapeShader, center: Vec2, cursor: Vec2)
  {
    var start := NormalizePosToScreenPos(shader, Sub(center, Vec2(SHAPE_RADIUS, SHAPE_RADIUS)));
    var end := NormalizePosToScreenPos(shader, Add(center, Vec2(SHAPE_RADIUS, SHAPE_RADIUS)));
    cursor.x > start.x && cursor.x < end.x && cursor.y > start.y && cursor.y < end.y
  }

  /** init_game's pass over the chosen shapes: shape k < NUM_SHAPES of the
      shuffled set gets the rotation direction of dice roll k. */
  function Dealt(s: seq<Shape>, dice: seq<real>): (r: seq<Shape>)
    requires |dice| == NUM_SHAPES
    ensures |r| == |s|
    ensures forall k :: 0 <= k < |s| ==> r[k].theta == s[k].theta && r[k].trans == s[k].trans
    ensures forall k :: 0 <= k < |s| ==> r[k].fill == s[k].fill && r[k].line == s[k].line
    ensures forall k :: NUM_SHAPES <= k < |s| ==> r[k] == s[k]
    ensures forall k :: 0 <= k < |s| && k < NUM_SHAPES ==> r[k].rotationDirection == Rotation(dice[k])
    ensures (forall k :: 0 <= k < |s| ==> Spinning(s[k])) ==> forall k :: 0 <= k < |r| ==> Spinning(r[k])
  {
    seq(|s|, k requires 0 <= k < |s| =>
      if k < NUM_SHAPES then s[k].(rotationDirection := Rotation(dice[k])) else s[k])
  }

  /** Reordering the shape set keeps every shape spinning. */
  lemma PermuteSpinning(s: seq<Shape>, p: seq<nat>)
    requires IsPermutation(p, |s|) && forall k :: 0 <= k < |s| ==> Spinning(s[k])
    ensures Indexes(p, s) && forall k :: 0 <= k < |p| ==> Spinning(Permute(s, p)[k])
  {
    PermutationBounds(p, |s|);
  }

  /** One animation step of a shape in play over `dt` seconds: it ends at its
      destination centre `dst`, and unless it is done it turns by
      SHAPE_ROTATION_SPEED in its rotation direction, the angle wrapped
      into [0, 2 pi]. */
  function Animate(s: Shape, done: bool, dst: Vec2, dt: real): (r: Shape)
    ensures r.trans == dst && (done ==> r.theta == s.theta)
    ensures r.(theta := s.theta, trans := s.trans) == s
    ensures Spinning(s) ==> Spinning(r)
  {
    s.(trans := dst, theta := if done then s.theta else WrapTheta(s.theta + SHAPE_ROTATION_SPEED * s.rotationDirection * dt))
  }

  /** The done flags after the button is released over `hit`: the selected
      shape becomes done exactly when the slot hit is its destination. */
  function Released(done: seq<bool>, selected: Option<nat>, srcToDst: seq<nat>, hit: Option<nat>): (r: seq<bool>)
    ensures |r| == |done|
    ensures forall k :: 0 <= k < |done| && done[k] ==> r[k]
    ensures forall k :: 0 <= k < |done| && r[k] != done[k] ==>
              selected == Some(k) && k < |srcToDst| && hit == Some(srcToDst[k])
  {
    match selected
    case Some(sel) =>
      if sel < |done| && sel < |srcToDst| && hit == Some(srcToDst[sel]) then done[sel := true] else done
    case None => done
  }

  predicate AllDone(done: seq<bool>)
  {
    forall k :: 0 <= k < |done| ==> done[k]
  }

  /** The number of shapes done, counted as the older main.cpp counts them. */
  function DoneCount(done: seq<bool>): (r: nat)
    ensures r <= |done|
  {
    if |done| == 0 then 0 else DoneCount(done[..|done| - 1]) + (if done[|done| - 1] then 1 else 0)
  }

  /** Counting the done flags decides a win exactly as std::all_of does. */
  lemma {:induction false} DoneCountAll(done: seq<bool>)
    ensures DoneCount(done) == |done| <==> AllDone(done)
  {
    if |done| > 0 {
      var front := done[..|done| - 1];
      DoneCountAll(front);
      assert forall k :: 0 <= k < |front| ==> front[k] == done[k];
      if DoneCount(done) == |done| {
        assert DoneCount(front) == |front| && done[|done| - 1];
      }
    }
  }

  /** Setting one flag that was false adds one to the count. */
  lemma {:induction false} DoneCountSet(done: seq<bool>, k: nat)
    requires k < |done| && !done[k]
    ensures DoneCount(done[k := true]) == DoneCount(done) + 1
  {
    var n := |done| - 1;
    var after := done[k := true];
    assert after[..n] == if k < n then done[..n][k := true] else done[..n];
    if k < n {
      DoneCountSet(done[..n], k);
    }
  }

  /** A release that matches a selected, unfinished shape finishes exactly one
      more shape; any other release finishes none. */
  lemma ReleaseProgress(done: seq<bool>, selected: Option<nat>, srcToDst: seq<nat>, hit: Option<nat>)
    requires selected.Some? ==> selected.value < |done| && !done[selected.value] && selected.value < |srcToDst|
    ensures var matched := selected.Some? && hit == Some(srcToDst[selected.value]);
            DoneCount(Released(done, selected, srcToDst, hit)) == DoneCount(done) + (if matched then 1 else 0)
  {
    if selected.Some? && hit == Some(srcToDst[selected.value]) {
      DoneCountSet(done, selected.value);
    }
  }

  lemma ScaleMonotone(s: real, u: real, v: real)
    requires s > 0.0 && u < v
    ensures u * s < v * s
  {
    assert v * s - u * s == (v - u) * s;
  }

  /** The slot columns are 2 / (2 NUM_SHAPES) apart, wider than a hit box, so
      with a positive screen scale no pointer lies in two boxes of one row. */
  lemma BoxesDisjoint(shader: ShapeShader, i: nat, j: nat, cursor: Vec2, dst: bool)
    requires shader.screenScale > 0.0 && i < j < NUM_SHAPES
    ensures !(InBox(shader, if dst then DstCenter(i) else SrcCenter(i), cursor) &&
              InBox(shader, if dst then DstCenter(j) else SrcCenter(j), cursor))
  {
    var a, b := if dst then DstCenter(i) else SrcCenter(i), if dst then DstCenter(j) else SrcCenter(j);
    var half := Vec2(SHAPE_RADIUS, SHAPE_RADIUS);
    assert Add(a, half).x < Sub(b, half).x;
    ScaleMonotone(shader.screenScale, Add(a, half).x, Sub(b, half).x);
    assert NormalizePosToScreenPos(shader, Add(a, half)).x < NormalizePosToScreenPos(shader, Sub(b, half)).x;
  }

  /** The source row and the destination row are far enough apart that no
      pointer lies in a source box and a destination box at once. */
  lemma RowsDisjoint(shader: ShapeShader, i: nat, j: nat, cursor: Vec2)
    requires shader.screenScale > 0.0
    ensures !(InBox(shader, SrcCenter(i), cursor) && InBox(shader, DstCenter(j), cursor))
  {
    var half := Vec2(SHAPE_RADIUS, SHAPE_RADIUS);
    assert Add(SrcCenter(i), half).y < Sub(DstCenter(j), half).y;
    ScaleMonotone(shader.screenScale, Add(SrcCenter(i), half).y, Sub(DstCenter(j), half).y);
  }

  /** The game state of src/main.cpp that the event handlers update. */
  class AppState {
    var score: int
    var shapeSet: seq<Shape>
    /** The five shapes in play, as positions in shapeSet: `shape[i]` points at
        shapeSet[shape[i]]. */
    const shape: array<nat>
    /** Shape i belongs on destination slot shapeSrcToDstIdx[i]. */
    const shapeSrcToDstIdx: array<nat>
    const srcCenter: array<Vec2>
    const dstCenter: array<Vec2>
    const shapeDone: array<bool>
    var selectedShape: Option<nat>
    var highlightDst: Option<nat>
    /** Screen placement of the normalised drawing area: the values that
        set_screen_scale and set_drawing_area_offset would hold.  Nothing in
        the game calls either, so the state takes them as given. */
    var shader: ShapeShader

    /** Every fixed-size array holds NUM_SHAPES entries. */
    predicate Sized()
    {
      && shape.Length == NUM_SHAPES && shapeSrcToDstIdx.Length == NUM_SHAPES
      && srcCenter.Length == NUM_SHAPES && dstCenter.Length == NUM_SHAPES && shapeDone.Length == NUM_SHAPES
    }

    ghost predicate Valid()
      reads this, shape, shapeSrcToDstIdx, srcCenter, dstCenter, shapeDone
    {
      && Sized()
      && shape != shapeSrcToDstIdx && srcCenter != dstCenter
      && NUM_SHAPES <= |shapeSet|
      && (forall i :: 0 <= i < NUM_SHAPES ==> shape[i] == i)
      && IsPermutation(shapeSrcToDstIdx[..], NUM_SHAPES)
      && (selectedShape.Some? ==> selectedShape.value < NUM_SHAPES && !shapeDone[selectedShape.value])
      && (highlightDst.Some? ==> highlightDst.value < NUM_SHAPES)
      && 0 <= score <= MAX_SCORE
      && (forall k :: 0 <= k < |shapeSet| ==> Spinning(shapeSet[k]))
    }

    /** The slot centres are the ones SDL_AppInit placed.  No handler writes
        them, so this stays true without being restated. */
    ghost predicate Placed()
      reads srcCenter, dstCenter
    {
      && srcCenter.Length == NUM_SHAPES && dstCenter.Length == NUM_SHAPES
      && forall i :: 0 <= i < NUM_SHAPES ==> srcCenter[i] == SrcCenter(i) && dstCenter[i] == DstCenter(i)
    }

    /** The allocation in SDL_AppInit together with its set-up of the shape set
        (every shape scaled to SHAPE_RADIUS) and of the slot centres. */
    constructor (shapes: seq<Shape>, shader: ShapeShader)
      requires NUM_SHAPES <= |shapes|
      requires forall k :: 0 <= k < |shapes| ==> Spinning(shapes[k])
      ensures Valid() && Placed()
      ensures fresh(shape) && fresh(shapeSrcToDstIdx) && fresh(srcCenter) && fresh(dstCenter) && fresh(shapeDone)
      ensures score == 0 && selectedShape == None && highlightDst == None && this.shader == shader
      ensures |shapeSet| == |shapes|
      ensures forall k :: 0 <= k < |shapes| ==> shapeSet[k] == shapes[k].(scale := SHAPE_RADIUS)
    {
      var scaled := shapes;
      for k := 0 to |scaled|
        invariant |scaled| == |shapes|
        invariant forall j :: 0 <= j < |shapes| ==>
                    scaled[j] == if j < k then shapes[j].(scale := SHAPE_RADIUS) else shapes[j]
      {
        scaled := scaled[k := scaled[k].(scale := SHAPE_RADIUS)];
      }
      var src := new Vec2[NUM_SHAPES];
      var dst := new Vec2[NUM_SHAPES];
      var div := (NUM_SHAPES * 2) as real;
      for i := 0 to NUM_SHAPES
        invariant forall j :: 0 <= j < i ==> src[j] == SrcCenter(j) && dst[j] == DstCenter(j)
      {
        src[i] := Vec2((i * 2 + 1) as real / div, NORM_HEIGHT * 1.0 / 4.0);
        dst[i] := Vec2((i * 2 + 1) as real / div, NORM_HEIGHT * 3.0 / 4.0);
      }
      score := 0;
      shapeSet := scaled;
      shape := new nat[NUM_SHAPES](i => i);
      shapeSrcToDstIdx := new nat[NUM_SHAPES](i => i);
      srcCenter := src;
      dstCenter := dst;
      shapeDone := new bool[NUM_SHAPES](i => false);
      selectedShape := None;
      highlightDst := None;
      this.shader := shader;
      new;
      assert shapeSrcToDstIdx[..] == Range(NUM_SHAPES);
    }

    /** Slot i can be picked: any destination slot, or a source shape not yet
        done, whose box holds the pointer. */
    predicate Eligible(cursor: Vec2, dst: bool, i: nat)
      reads this`shader, srcCenter, dstCenter, shapeDone
      requires i < NUM_SHAPES && Sized()
    {
      (dst || !shapeDone[i]) && InBox(shader, if dst then dstCenter[i] else srcCenter[i], cursor)
    }

    /** The first eligible slot at or after i. */
    function PickFrom(cursor: Vec2, dst: bool, i: nat): (r: Option<nat>)
      reads this`shader, srcCenter, dstCenter, shapeDone
      requires Sized() && i <= NUM_SHAPES
      ensures r.Some? ==> i <= r.value < NUM_SHAPES && Eligible(cursor, dst, r.value)
      ensures r.Some? ==> forall j :: i <= j < r.value ==> !Eligible(cursor, dst, j)
      ensures r.None? <==> forall j :: i <= j < NUM_SHAPES ==> !Eligible(cursor, dst, j)
      decreases NUM_SHAPES - i
    {
      if i == NUM_SHAPES then None
      else if Eligible(cursor, dst, i) then Some(i)
      else PickFrom(cursor, dst, i + 1)
    }

    /** find_selected_shape's answer for the pointer at `cursor`. */
    function Pick(cursor: Vec2, dst: bool): Option<nat>
      reads this`shader, srcCenter, dstCenter, shapeDone
      requires Sized()
    {
      PickFrom(cursor, dst, 0)
    }

    /** With a positive screen scale the slot picked is the only eligible one. */
    lemma PickUnique(cursor: Vec2, dst: bool, j: nat)
      requires Valid() && Placed() && shader.screenScale > 0.0 && j < NUM_SHAPES
      requires Eligible(cursor, dst, j)
      ensures Pick(cursor, dst) == Some(j)
    {
      var r := Pick(cursor, dst);
      assert r.Some?;
      if r.value < j {
        BoxesDisjoint(shader, r.value, j, cursor, dst);
      }
    }

    /** find_selected_shape: scan the slots in order and stop at the first whose
        box strictly holds the pointer, skipping source shapes already done. */
    method FindSelectedShape(cursor: Vec2, dst: bool) returns (r: Option<nat>)
      requires Sized()
      ensures r == Pick(cursor, dst)
      ensures r.Some? ==> r.value < NUM_SHAPES && Eligible(cursor, dst, r.value)
      ensures r.Some? ==> forall j :: 0 <= j < r.value ==> !Eligible(cursor, dst, j)
      ensures r.None? <==> forall j :: 0 <= j < NUM_SHAPES ==> !Eligible(cursor, dst, j)
    {
      var shapeRadius := Vec2(SHAPE_RADIUS, SHAPE_RADIUS);
      r := None;
      var i := 0;
      while i < NUM_SHAPES
        invariant 0 <= i <= NUM_SHAPES && r == None
        invariant PickFrom(cursor, dst, i) == Pick(cursor, dst)
      {
        if dst || !shapeDone[i] {
          var center := if dst then dstCenter[i] else srcCenter[i];
          var start := NormalizePosToScreenPos(shader, Sub(center, shapeRadius));
          var end := NormalizePosToScreenPos(shader, Add(center, shapeRadius));
          var hit := cursor.x > start.x && cursor.x < end.x && cursor.y > start.y && cursor.y < end.y;
          assert hit == Eligible(cursor, dst, i);
          if hit {
            r := Some(i);
            break;
          }
        }
        i := i + 1;
      }
    }

    /** The first loop of init_game: shape i is entry i of the (already
        shuffled) shape set, its destination index is i for now, and its
        rotation direction is what dice[i] picked. */
    method DealShapes(dice: seq<real>)
      requires Sized() && NUM_SHAPES <= |shapeSet| && |dice| == NUM_SHAPES
      modifies this`shapeSet, shape, shapeSrcToDstIdx
      ensures shapeSet == Dealt(old(shapeSet), dice)
      ensures shapeSrcToDstIdx[..] == Range(NUM_SHAPES)
      ensures forall i :: 0 <= i < NUM_SHAPES ==> shape[i] == i
    {
      var dealt := shapeSet;
      for i := 0 to NUM_SHAPES
        invariant |dealt| == |shapeSet|
        invariant forall k :: 0 <= k < |shapeSet| ==>
                    dealt[k] == if k < i then shapeSet[k].(rotationDirection := Rotation(dice[k])) else shapeSet[k]
        invariant forall k :: 0 <= k < i ==> shape[k] == k && shapeSrcToDstIdx[k] == k
        modifies shape, shapeSrcToDstIdx
      {
        shape[i] := i;
        shapeSrcToDstIdx[i] := i;
        var direction := if dice[i] > 0.5 then 1.0 else -1.0;
        dealt := dealt[i := dealt[i].(rotationDirection := direction)];
      }
      shapeSet := dealt;
      assert shapeSrcToDstIdx[..] == Range(NUM_SHAPES);
    }

    /** std::shuffle of the destination indices, which hold 0 .. NUM_SHAPES - 1:
        they end up in the order the shuffle chose. */
    method ShuffleDestinations(dstShuffle: seq<nat>)
      requires Sized() && shapeSrcToDstIdx[..] == Range(NUM_SHAPES) && IsPermutation(dstShuffle, NUM_SHAPES)
      modifies shapeSrcToDstIdx
      ensures shapeSrcToDstIdx[..] == dstShuffle
    {
      var identity := shapeSrcToDstIdx[..];
      PermutationBounds(dstShuffle, NUM_SHAPES);
      forall k | 0 <= k < NUM_SHAPES {
        shapeSrcToDstIdx[k] := identity[dstShuffle[k]];
      }
      assert shapeSrcToDstIdx[..] == dstShuffle;
    }

    /** init_game: shuffle the shape set (the shuffle's choice is `shuffle`),
        put its first NUM_SHAPES shapes in play with the rotation directions
        the dice picked, give them the destinations `dstShuffle` (the shuffle
        of the identity), and clear every done flag and the selection. */
    method InitGame(shuffle: seq<nat>, dice: seq<real>, dstShuffle: seq<nat>)
      requires Valid()
      requires IsPermutation(shuffle, |shapeSet|) && |dice| == NUM_SHAPES && IsPermutation(dstShuffle, NUM_SHAPES)
      modifies this`shapeSet, this`selectedShape, this`highlightDst, shape, shapeSrcToDstIdx, shapeDone
      ensures Valid()
      ensures Indexes(shuffle, old(shapeSet)) && |shapeSet| == |old(shapeSet)|
      ensures shapeSet == Dealt(Permute(old(shapeSet), shuffle), dice)
      ensures multiset(Permute(old(shapeSet), shuffle)) == multiset(old(shapeSet))
      ensures shapeSrcToDstIdx[..] == dstShuffle
      ensures forall i :: 0 <= i < NUM_SHAPES ==> !shapeDone[i]
      ensures selectedShape == None && highlightDst == None
    {
      PermuteMultiset(shapeSet, shuffle);
      PermuteSpinning(shapeSet, shuffle);
      shapeSet := Permute(shapeSet, shuffle);
      DealShapes(dice);
      ShuffleDestinations(dstShuffle);
      for i := 0 to NUM_SHAPES
        invariant forall k :: 0 <= k < i ==> !shapeDone[k]
        modifies shapeDone
      {
        shapeDone[i] := false;
      }
      selectedShape := None;
      highlightDst := None;
      assert shapeSrcToDstIdx[..] == dstShuffle;
      assert IsPermutation(shapeSrcToDstIdx[..], NUM_SHAPES);
    }

    /** SDL_EVENT_MOUSE_BUTTON_DOWN: select the unfinished source shape under
        the pointer, or nothing. */
    method ButtonDown(cursor: Vec2)
      requires Valid()
      modifies this`selectedShape
      ensures Valid()
      ensures selectedShape == Pick(cursor, false)
    {
      selectedShape := FindSelectedShape(cursor, false);
    }

    /** SDL_EVENT_MOUSE_MOTION: highlight the destination slot under the
        pointer while a shape is being dragged. */
    method Motion(cursor: Vec2)
      requires Valid()
      modifies this`highlightDst
      ensures Valid()
      ensures highlightDst == if selectedShape.Some? then Pick(cursor, true) else None
    {
      highlightDst := None;
      if selectedShape.Some? {
        highlightDst := FindSelectedShape(cursor, true);
      }
    }

    /** The first half of the button-up handler: a shape dropped on its own
        destination box is done, and nothing is selected or highlighted any more. */
    method Release(cursor: Vec2)
      requires Valid()
      modifies this`selectedShape, this`highlightDst, shapeDone
      ensures Valid()
      ensures selectedShape == None && highlightDst == None
      ensures shapeDone[..] == Released(old(shapeDone[..]), old(selectedShape), shapeSrcToDstIdx[..], old(Pick(cursor, true)))
    {
      ghost var done := Released(shapeDone[..], selectedShape, shapeSrcToDstIdx[..], Pick(cursor, true));
      highlightDst := None;
      if selectedShape.Some? {
        var dstIdx := FindSelectedShape(cursor, true);
        var sel := selectedShape.value;
        if dstIdx == Some(shapeSrcToDstIdx[sel]) {
          shapeDone[sel] := true;
        }
      }
      selectedShape := None;
      assert shapeDone[..] == done;
    }

    /** SDL_EVENT_MOUSE_BUTTON_UP: the drop of Release, then, once every shape
        in play is done, the score goes up (back to 1 past MAX_SCORE) and a new
        round is dealt. */
    method ButtonUp(cursor: Vec2, shuffle: seq<nat>, dice: seq<real>, dstShuffle: seq<nat>)
      requires Valid()
      requires IsPermutation(shuffle, |shapeSet|) && |dice| == NUM_SHAPES && IsPermutation(dstShuffle, NUM_SHAPES)
      modifies this`score, this`shapeSet, this`selectedShape, this`highlightDst, shape, shapeSrcToDstIdx, shapeDone
      ensures Valid()
      ensures selectedShape == None && highlightDst == None
      ensures var done := Released(old(shapeDone[..]), old(selectedShape), old(shapeSrcToDstIdx[..]), old(Pick(cursor, true)));
              if AllDone(done) then
                && score == NextScore(old(score))
                && Indexes(shuffle, old(shapeSet)) && shapeSet == Dealt(Permute(old(shapeSet), shuffle), dice)
                && shapeSrcToDstIdx[..] == dstShuffle
                && forall i :: 0 <= i < NUM_SHAPES ==> !shapeDone[i]
              else
                && score == old(score) && shapeSet == old(shapeSet)
                && shapeSrcToDstIdx[..] == old(shapeSrcToDstIdx[..])
                && shapeDone[..] == done
    {
      Release(cursor);
      if forall i :: 0 <= i < NUM_SHAPES ==> shapeDone[i] {
        score := score + 1;
        if score > MAX_SCORE {
          score := 1;
        }
        InitGame(shuffle, dice, dstShuffle);
      }
    }

    /** Where SDL_AppIterate draws shape i filled: at its destination once
        done, under the pointer while it is dragged, at its source slot
        otherwise. */
    function FilledAt(i: nat, cursor: Vec2): Vec2
      reads this`selectedShape, this`shader, shapeDone, shapeSrcToDstIdx
      requires Sized() && i < NUM_SHAPES && shader.screenScale != 0.0
    {
      if shapeDone[i] then DstCenter(shapeSrcToDstIdx[i])
      else if selectedShape == Some(i) then ScreenPosToNormalizePos(shader, cursor)
      else SrcCenter(i)
    }

    /** The animation step of SDL_AppIterate, `dt` seconds after the last:
        every shape in play is moved as Animate says (its outline is drawn last
        at its destination), and drawnAt[i] is FilledAt(i, cursor). */
    method Iterate(dt: real, cursor: Vec2) returns (drawnAt: seq<Vec2>)
      requires Valid() && Placed() && shader.screenScale != 0.0
      modifies this`shapeSet
      ensures Valid()
      ensures |shapeSet| == |old(shapeSet)| && |drawnAt| == NUM_SHAPES
      ensures forall k :: NUM_SHAPES <= k < |shapeSet| ==> shapeSet[k] == old(shapeSet[k])
      ensures forall i :: 0 <= i < NUM_SHAPES ==>
                shapeSet[i] == Animate(old(shapeSet[i]), shapeDone[i], DstCenter(shapeSrcToDstIdx[i]), dt)
      ensures forall i :: 0 <= i < NUM_SHAPES ==> drawnAt[i] == FilledAt(i, cursor)
    {
      PermutationBounds(shapeSrcToDstIdx[..], NUM_SHAPES);
      var shapes := shapeSet;
      drawnAt := [];
      for i := 0 to NUM_SHAPES
        invariant |shapes| == |shapeSet| && |drawnAt| == i
        invariant forall k :: i <= k < |shapes| ==> shapes[k] == shapeSet[k]
        invariant forall k :: 0 <= k < i ==>
                    shapes[k] == Animate(shapeSet[k], shapeDone[k], DstCenter(shapeSrcToDstIdx[k]), dt)
        invariant forall k :: 0 <= k < i ==> drawnAt[k] == FilledAt(k, cursor)
        invariant forall k :: 0 <= k < |shapes| ==> Spinning(shapes[k])
      {
        var p := shape[i];
        var s := shapes[p];
        var dstIdx := shapeSrcToDstIdx[i];
        if shapeDone[i] {
          s := s.(trans := dstCenter[dstIdx]);
        } else {
          if selectedShape == Some(i) {
            s := s.(trans := ScreenPosToNormalizePos(shader, cursor));
          } else {
            s := s.(trans := srcCenter[i]);
          }
        }
        assert s.trans == FilledAt(i, cursor);
        drawnAt := drawnAt + [s.trans];
        if !shapeDone[i] {
          var theta := s.theta + SHAPE_ROTATION_SPEED * s.rotationDirection * dt;
          if theta < 0.0 {
            theta := 2.0 * PI;
          } else if theta > 2.0 * PI {
            theta := 0.0;
          }
          s := s.(theta := theta, trans := dstCenter[dstIdx]);
        }
        assert s == Animate(shapeSet[i], shapeDone[i], DstCenter(dstIdx), dt);
        shapes := shapes[p := s];
      }
      shapeSet := shapes;
    }

    /** The shape being dragged is drawn exactly under the pointer. */
    lemma DraggedUnderPointer(cursor: Vec2, i: nat)
      requires Valid() && shader.screenScale != 0.0 && selectedShape == Some(i)
      ensures i < NUM_SHAPES && NormalizePosToScreenPos(shader, FilledAt(i, cursor)) == cursor
    {
      ScreenPosRoundTrip(shader, cursor);
    }
  }

  /** SDL_AppInit's game part: build the shape set from the palette (the
      shuffle of its colours being `colorShuffle`), make the state, and deal
      the first round.  `shapes` is the set make_shape_set built: the game's
      set is it at SHAPE_RADIUS, shuffled and dealt. */
  method AppInit(m: RealMath, lineColor: Vec4, palette: seq<Vec4>, colorShuffle: seq<nat>, shader: ShapeShader,
                 shuffle: seq<nat>, dice: seq<real>, dstShuffle: seq<nat>)
    returns (app: AppState, ghost shapes: seq<Shape>)
    requires |palette| > 0 && IsPermutation(colorShuffle, |palette|) && SetReady(m)
    requires IsPermutation(shuffle, SET_SIZE) && |dice| == NUM_SHAPES && IsPermutation(dstShuffle, NUM_SHAPES)
    ensures fresh(app) && app.Valid() && app.Placed() && app.shader == shader
    ensures Indexes(colorShuffle, palette) && |shapes| == SET_SIZE
    ensures Built(shapes, m, lineColor, SetOutlines(m), SetFills(Permute(palette, colorShuffle)))
    ensures Indexes(shuffle, AtShapeRadius(shapes)) && app.shapeSet == Dealt(Permute(AtShapeRadius(shapes), shuffle), dice)
    ensures app.score == 0 && app.selectedShape == None && app.highlightDst == None
    ensures |app.shapeSet| == SET_SIZE && app.shapeSrcToDstIdx[..] == dstShuffle
    ensures forall i :: 0 <= i < NUM_SHAPES ==> !app.shapeDone[i]
  {
    var built := MakeShapeSet(m, lineColor, palette, colorShuffle);
    shapes := built;
    BuiltAtRest(built, m, lineColor, SetOutlines(m), SetFills(Permute(palette, colorShuffle)));
    app := new AppState(built, shader);
    assert app.shapeSet == AtShapeRadius(built);
    app.InitGame(shuffle, dice, dstShuffle);
  }

  /** The set as the AppState constructor stores it: every shape drawn at
      SHAPE_RADIUS. */
  function AtShapeRadius(shapes: seq<Shape>): (r: seq<Shape>)
    ensures |r| == |shapes|
  {
    seq(|shapes|, k requires 0 <= k < |shapes| => shapes[k].(scale := SHAPE_RADIUS))
  }
}

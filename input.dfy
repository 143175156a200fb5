/** The application's input and UI state: the mouse and scroll callbacks,
    the hold detection at the top of each frame, the reflection/refraction
    combo and the names of the point-light uniforms. Doubles and floats are
    modelled as reals; the GLFW cursor mode is the `cursorDisabled` flag. */
module Input {
  import opened Gl
  import Decimal

  const MOUSE_SENSITIVITY: real := 0.1
  const DURATION_TO_MOUSE_HOLD: real := 0.1   // seconds
  const PITCH_LIMIT: real := 89.0
  const FOV_MIN: real := 1.0
  const FOV_MAX: real := 45.0
  const SCR_WIDTH: nat := 1280
  const SCR_HEIGHT: nat := 720
  const POINT_LIGHT_COUNT: nat := 4

  datatype Button = LeftButton | RightButton | OtherButton
  datatype Action = Press | Release | Repeat

  /** Clamping into [lo, hi]: the result lies in the range, and it is the
      input exactly when the input already lies in the range. */
  function Clamp(v: real, lo: real, hi: real): (r: real)
    requires lo <= hi
    ensures lo <= r <= hi
    ensures lo <= v <= hi <==> r == v
  {
    if v < lo then lo else if v > hi then hi else v
  }

  /** The reflection and refraction flags the combo selects for an index. */
  datatype EnvFlags = EnvFlags(reflections: bool, refractions: bool)

  function ComboFlags(idx: int): (f: EnvFlags)
    requires 0 <= idx <= 2
    ensures !(f.reflections && f.refractions)
    ensures f.reflections <==> idx == 1
    ensures f.refractions <==> idx == 2
  {
    if idx == 1 then EnvFlags(true, false)
    else if idx == 2 then EnvFlags(false, true)
    else EnvFlags(false, false)
  }

  /** The stats window's triangle count: unsigned division by three. */
  function TriangleCount(indexCount: nat): (t: nat)
    ensures 3 * t <= indexCount < 3 * t + 3
  {
    indexCount / 3
  }

  class InputState {
    var camYaw: real
    var camPitch: real
    var fov: real
    var shouldPanCamera: bool
    var isFirstMouse: bool
    var lastMouseX: real
    var lastMouseY: real
    var isLeftMouseHolding: bool
    var mouseHoldStartTime: real
    var mouseHoldDuration: real
    var cursorDisabled: bool
    var deltaTime: real
    var lastFrameTime: real
    var shouldEnableReflections: bool
    var shouldEnableRefractions: bool
    var itemPrevIdx: int

    /** What every callback keeps: the pitch and the field of view stay in
        their ranges and the two environment effects are never both on. */
    ghost predicate Valid()
      reads this
    {
      && -PITCH_LIMIT <= camPitch <= PITCH_LIMIT
      && FOV_MIN <= fov <= FOV_MAX
      && !(shouldEnableReflections && shouldEnableRefractions)
      && 0 <= itemPrevIdx <= 2
    }

    /** The globals' initial values. */
    constructor ()
      ensures Valid()
      ensures camYaw == -90.0 && camPitch == 0.0 && fov == FOV_MAX
      ensures !shouldPanCamera && isFirstMouse && !isLeftMouseHolding && !cursorDisabled
      ensures lastMouseX == SCR_WIDTH as real / 2.0 && lastMouseY == SCR_HEIGHT as real / 2.0
      ensures !shouldEnableReflections && !shouldEnableRefractions && itemPrevIdx == 0
      ensures deltaTime == 0.0 && lastFrameTime == 0.0 && mouseHoldStartTime == 0.0 && mouseHoldDuration == 0.0
    {
      camYaw, camPitch, fov := -90.0, 0.0, FOV_MAX;
      shouldPanCamera, isFirstMouse := false, true;
      lastMouseX, lastMouseY := SCR_WIDTH as real / 2.0, SCR_HEIGHT as real / 2.0;
      isLeftMouseHolding, mouseHoldStartTime, mouseHoldDuration := false, 0.0, 0.0;
      cursorDisabled := false;
      deltaTime, lastFrameTime := 0.0, 0.0;
      shouldEnableReflections, shouldEnableRefractions, itemPrevIdx := false, false, 0;
    }

    /** `mouse_button_callback`; `now` is the clock reading on a left press. */
    method MouseButton(button: Button, action: Action, now: real)
      requires Valid()
      modifies this
      ensures Valid()
      ensures button == RightButton && action == Press ==>
        shouldPanCamera && cursorDisabled && isFirstMouse == old(isFirstMouse)
      ensures button == RightButton && action == Release ==>
        !shouldPanCamera && isFirstMouse && !cursorDisabled
      ensures button == LeftButton && action == Press ==>
        isLeftMouseHolding && mouseHoldStartTime == now
        && mouseHoldDuration == old(mouseHoldDuration) && cursorDisabled == old(cursorDisabled)
      ensures button == LeftButton && action == Release ==>
        !isLeftMouseHolding && mouseHoldDuration == 0.0 && !cursorDisabled
        && mouseHoldStartTime == old(mouseHoldStartTime)
      ensures button != RightButton || action == Repeat ==>
        shouldPanCamera == old(shouldPanCamera) && isFirstMouse == old(isFirstMouse)
      ensures button != LeftButton || action == Repeat ==>
        isLeftMouseHolding == old(isLeftMouseHolding) && mouseHoldStartTime == old(mouseHoldStartTime)
        && mouseHoldDuration == old(mouseHoldDuration)
      ensures button == OtherButton || action == Repeat ==> cursorDisabled == old(cursorDisabled)
      ensures camYaw == old(camYaw) && camPitch == old(camPitch) && fov == old(fov)
      ensures lastMouseX == old(lastMouseX) && lastMouseY == old(lastMouseY)
      ensures deltaTime == old(deltaTime) && lastFrameTime == old(lastFrameTime)
      ensures shouldEnableReflections == old(shouldEnableReflections)
      ensures shouldEnableRefractions == old(shouldEnableRefractions) && itemPrevIdx == old(itemPrevIdx)
    {
      if button == RightButton && action == Press {
        shouldPanCamera := true;
        cursorDisabled := true;
      } else if button == RightButton && action == Release {
        shouldPanCamera := false;
        isFirstMouse := true;
        cursorDisabled := false;
      }

      if button == LeftButton && action == Press {
        isLeftMouseHolding := true;
        mouseHoldStartTime := now;
      } else if button == LeftButton && action == Release {
        isLeftMouseHolding := false;
        mouseHoldDuration := 0.0;
        cursorDisabled := false;
      }
    }

    /** `cursor_pos_callback`: ignored unless panning. The first event of a
        pan only records the position (zero offsets); later ones turn the
        camera by the scaled offsets, with the pitch clamped and the yaw
        left unbounded. The camera front vector is left out. */
    method CursorPos(xPos: real, yPos: real)
      requires Valid()
      modifies this
      ensures Valid()
      ensures !old(shouldPanCamera) ==>
        camYaw == old(camYaw) && camPitch == old(camPitch)
        && lastMouseX == old(lastMouseX) && lastMouseY == old(lastMouseY) && isFirstMouse == old(isFirstMouse)
      ensures old(shouldPanCamera) ==>
        && lastMouseX == xPos && lastMouseY == yPos && !isFirstMouse
        && (old(isFirstMouse) ==> camYaw == old(camYaw) && camPitch == old(camPitch))
        && (!old(isFirstMouse) ==>
              camYaw == old(camYaw) + (xPos - old(lastMouseX)) * MOUSE_SENSITIVITY
              && camPitch == Clamp(old(camPitch) + (old(lastMouseY) - yPos) * MOUSE_SENSITIVITY, -PITCH_LIMIT, PITCH_LIMIT))
      ensures fov == old(fov) && shouldPanCamera == old(shouldPanCamera)
      ensures isLeftMouseHolding == old(isLeftMouseHolding) && cursorDisabled == old(cursorDisabled)
      ensures mouseHoldStartTime == old(mouseHoldStartTime) && mouseHoldDuration == old(mouseHoldDuration)
      ensures deltaTime == old(deltaTime) && lastFrameTime == old(lastFrameTime)
      ensures shouldEnableReflections == old(shouldEnableReflections)
      ensures shouldEnableRefractions == old(shouldEnableRefractions) && itemPrevIdx == old(itemPrevIdx)
    {
      if !shouldPanCamera {
        return;
      }
      if isFirstMouse {
        lastMouseX := xPos;
        lastMouseY := yPos;
        isFirstMouse := false;
      }
      var xOffset := xPos - lastMouseX;
      var yOffset := lastMouseY - yPos;
      lastMouseX := xPos;
      lastMouseY := yPos;
      xOffset := xOffset * MOUSE_SENSITIVITY;
      yOffset := yOffset * MOUSE_SENSITIVITY;
      camYaw := camYaw + xOffset;
      camPitch := camPitch + yOffset;
      if camPitch > PITCH_LIMIT {
        camPitch := PITCH_LIMIT;
      }
      if camPitch < -PITCH_LIMIT {
        camPitch := -PITCH_LIMIT;
      }
    }

    /** `scroll_callback`: zoom by the vertical offset, clamped to [1, 45]. */
    method Scroll(yOffset: real)
      requires Valid()
      modifies this
      ensures Valid()
      ensures fov == Clamp(old(fov) - yOffset, FOV_MIN, FOV_MAX)
      ensures camYaw == old(camYaw) && camPitch == old(camPitch)
      ensures shouldPanCamera == old(shouldPanCamera) && isFirstMouse == old(isFirstMouse)
      ensures lastMouseX == old(lastMouseX) && lastMouseY == old(lastMouseY)
      ensures isLeftMouseHolding == old(isLeftMouseHolding) && cursorDisabled == old(cursorDisabled)
      ensures mouseHoldStartTime == old(mouseHoldStartTime) && mouseHoldDuration == old(mouseHoldDuration)
      ensures deltaTime == old(deltaTime) && lastFrameTime == old(lastFrameTime)
      ensures shouldEnableReflections == old(shouldEnableReflections)
      ensures shouldEnableRefractions == old(shouldEnableRefractions) && itemPrevIdx == old(itemPrevIdx)
    {
      fov := fov - yOffset;
      if fov < FOV_MIN {
        fov := FOV_MIN;
      }
      if fov > FOV_MAX {
        fov := FOV_MAX;
      }
    }

    /** The hold detection at the top of each frame of the main loop; `now`
        is the clock reading. While the left button is held the duration is
        refreshed, and once it reaches 0.1 s the cursor is disabled. */
    method FrameTick(now: real)
      requires Valid()
      modifies this
      ensures Valid()
      ensures deltaTime == now - old(lastFrameTime) && lastFrameTime == now
      ensures old(isLeftMouseHolding) ==>
        mouseHoldDuration == now - mouseHoldStartTime
        && cursorDisabled == (old(cursorDisabled) || mouseHoldDuration >= DURATION_TO_MOUSE_HOLD)
      ensures !old(isLeftMouseHolding) ==>
        mouseHoldDuration == old(mouseHoldDuration) && cursorDisabled == old(cursorDisabled)
      ensures camYaw == old(camYaw) && camPitch == old(camPitch) && fov == old(fov)
      ensures shouldPanCamera == old(shouldPanCamera) && isFirstMouse == old(isFirstMouse)
      ensures lastMouseX == old(lastMouseX) && lastMouseY == old(lastMouseY)
      ensures isLeftMouseHolding == old(isLeftMouseHolding) && mouseHoldStartTime == old(mouseHoldStartTime)
      ensures shouldEnableReflections == old(shouldEnableReflections)
      ensures shouldEnableRefractions == old(shouldEnableRefractions) && itemPrevIdx == old(itemPrevIdx)
    {
      deltaTime := now - lastFrameTime;
      if isLeftMouseHolding {
        mouseHoldDuration := now - mouseHoldStartTime;
        if !cursorDisabled && mouseHoldDuration >= DURATION_TO_MOUSE_HOLD {
          cursorDisabled := true;
        }
      }
      lastFrameTime := now;
    }

    /** The combo of `displayUI`: a new selection sets the two flags for it
        and is remembered; selecting the same entry again changes nothing. */
    method Combo(currentIdx: int)
      requires Valid()
      requires 0 <= currentIdx <= 2
      modifies this
      ensures Valid()
      ensures currentIdx == old(itemPrevIdx) ==>
        shouldEnableReflections == old(shouldEnableReflections)
        && shouldEnableRefractions == old(shouldEnableRefractions)
      ensures currentIdx != old(itemPrevIdx) ==>
        EnvFlags(shouldEnableReflections, shouldEnableRefractions) == ComboFlags(currentIdx)
      ensures itemPrevIdx == currentIdx
      ensures camYaw == old(camYaw) && camPitch == old(camPitch) && fov == old(fov)
      ensures shouldPanCamera == old(shouldPanCamera) && isFirstMouse == old(isFirstMouse)
      ensures lastMouseX == old(lastMouseX) && lastMouseY == old(lastMouseY)
      ensures isLeftMouseHolding == old(isLeftMouseHolding) && cursorDisabled == old(cursorDisabled)
      ensures mouseHoldStartTime == old(mouseHoldStartTime) && mouseHoldDuration == old(mouseHoldDuration)
      ensures deltaTime == old(deltaTime) && lastFrameTime == old(lastFrameTime)
    {
      if currentIdx != itemPrevIdx {
        if currentIdx == 0 {
          shouldEnableReflections := false;
          shouldEnableRefractions := false;
        } else if currentIdx == 1 {
          shouldEnableReflections := true;
          shouldEnableRefractions := false;
        } else if currentIdx == 2 {
          shouldEnableReflections := false;
          shouldEnableRefractions := true;
        }
        itemPrevIdx := currentIdx;
      }
    }
  }

  // -----------------------------------------------------------------------
  // Point-light uniforms of `setLightParameters`.

  function PointLightPosName(i: nat): string {
    "pointLightPos[" + Decimal.NatToString(i) + "]"
  }

  function PointLightName(i: nat): string {
    "pointLights[" + Decimal.NatToString(i) + "]"
  }

  /** The calls for point light i: its position, then its parameters. */
  function PointLightEvents(i: nat): seq<Event> {
    var light := PointLightName(i);
    [SetVec3(PointLightPosName(i)), SetBool(light + ".isActive", true),
     SetVec3(light + ".ambient"), SetVec3(light + ".diffuse")]
    + [SetVec3(light + ".specular"), SetFloat(light + ".constant"),
       SetFloat(light + ".linear"), SetFloat(light + ".quadratic")]
  }

  const EVENTS_PER_LIGHT: nat := 8

  /** The calls for point lights 0 .. n-1, in array order. */
  function PointLightsEvents(n: nat): (es: seq<Event>)
    ensures |es| == EVENTS_PER_LIGHT * n
  {
    if n == 0 then [] else PointLightsEvents(n - 1) + PointLightEvents(n - 1)
  }

  /** Call 8 * i + j of the point-light calls belongs to light i: the block
      of light i sits at its array position. */
  lemma {:induction false} PointLightsEventsAt(n: nat, i: nat, j: nat)
    requires i < n && j < EVENTS_PER_LIGHT
    ensures PointLightsEvents(n)[EVENTS_PER_LIGHT * i + j] == PointLightEvents(i)[j]
  {
    if i < n - 1 {
      PointLightsEventsAt(n - 1, i, j);
    }
  }

  /** The bracketed number of a point-light name is the light's index. */
  lemma PointLightIndex(i: nat)
    ensures var name := PointLightName(i);
      && name[..12] == "pointLights["
      && name[|name| - 1] == ']'
      && Decimal.IsDigits(name[12..|name| - 1])
      && Decimal.DecimalValue(name[12..|name| - 1]) == i
  {
    var name := PointLightName(i);
    assert name[12..|name| - 1] == Decimal.NatToString(i);
    Decimal.DecimalRoundTrip(i);
  }

  /** Different lights get different uniform names. */
  lemma PointLightNamesDistinct(i: nat, j: nat)
    requires i != j
    ensures PointLightName(i) != PointLightName(j)
    ensures PointLightPosName(i) != PointLightPosName(j)
  {
    Decimal.NatToStringInjective(i, j);
    var light, otherLight := PointLightName(i), PointLightName(j);
    assert light[12..|light| - 1] == Decimal.NatToString(i);
    assert otherLight[12..|otherLight| - 1] == Decimal.NatToString(j);
    var pos, otherPos := PointLightPosName(i), PointLightPosName(j);
    assert pos[14..|pos| - 1] == Decimal.NatToString(i);
    assert otherPos[14..|otherPos| - 1] == Decimal.NatToString(j);
  }

  /** The point-light loop of `setLightParameters`, over the four lights. */
  method SetPointLightParameters(gl: Context)
    modifies gl
    ensures gl.lastName == old(gl.lastName)
    ensures gl.trace == old(gl.trace) + PointLightsEvents(POINT_LIGHT_COUNT)
  {
    var i: nat := 0;
    while i < POINT_LIGHT_COUNT
      invariant i <= POINT_LIGHT_COUNT
      invariant gl.lastName == old(gl.lastName)
      invariant gl.trace == old(gl.trace) + PointLightsEvents(i)
    {
      SetPointLight(i, gl);
      i := i + 1;
    }
  }

  /** One iteration of the point-light loop: the uniforms of light i. */
  method SetPointLight(i: nat, gl: Context)
    modifies gl
    ensures gl.lastName == old(gl.lastName)
    ensures gl.trace == old(gl.trace) + PointLightEvents(i)
  {
    var pointLightPos := "pointLightPos[" + Decimal.NatToString(i) + "]";
    gl.Emit(SetVec3(pointLightPos));
    var pointLight := "pointLights[" + Decimal.NatToString(i) + "]";
    gl.Emit(SetBool(pointLight + ".isActive", true));
    gl.Emit(SetVec3(pointLight + ".ambient"));
    gl.Emit(SetVec3(pointLight + ".diffuse"));
    gl.Emit(SetVec3(pointLight + ".specular"));
    gl.Emit(SetFloat(pointLight + ".constant"));
    gl.Emit(SetFloat(pointLight + ".linear"));
    gl.Emit(SetFloat(pointLight + ".quadratic"));
  }
}

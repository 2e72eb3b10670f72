/**
 * The mouse handling (`jFluidic.Interactor`): the buttons held over the
 * canvas decide what the simulator injects. Button 1 (left) injects into the
 * red channel, button 3 (right) into the blue one; with neither held the
 * injection stops. The canvas is 256 by 256 pixels, its y axis pointing down,
 * while the simulation's y axis points up.
 */
module Interaction {
  import opened Wrappers
  import opened Fluids

  /** `this._buttons[b]` is truthy: the button was pressed and not released since. */
  predicate Held(buttons: map<int, bool>, b: int) {
    b in buttons && buttons[b]
  }

  /** The injection `_injectVelocity(x, y)` asks for, if any. */
  function InjectionFor(buttons: map<int, bool>, x: real, y: real): Option<Injection> {
    if !Held(buttons, 1) && !Held(buttons, 3) then None
    else Some(Injection([x / 256.0, 1.0 - y / 256.0], [if Held(buttons, 1) then 1.0 else 0.0, 0.0, if Held(buttons, 3) then 1.0 else 0.0, 1.0]))
  }

  /** An injection is asked for exactly while button 1 or button 3 is held. */
  lemma InjectsWhileHeld(buttons: map<int, bool>, x: real, y: real)
    ensures InjectionFor(buttons, x, y).Some? <==> Held(buttons, 1) || Held(buttons, 3)
  {
  }

  /**
   * The injection's position is the mouse position in the unit square, y
   * flipped: mapping it back to the canvas gives the pixel the mouse is on.
   */
  lemma PositionFromCanvas(buttons: map<int, bool>, x: real, y: real)
    requires InjectionFor(buttons, x, y).Some?
    ensures |InjectionFor(buttons, x, y).value.position| == 2
    ensures 256.0 * InjectionFor(buttons, x, y).value.position[0] == x
    ensures 256.0 * (1.0 - InjectionFor(buttons, x, y).value.position[1]) == y
    ensures 0.0 <= x <= 256.0 && 0.0 <= y <= 256.0 ==>
      0.0 <= InjectionFor(buttons, x, y).value.position[0] <= 1.0 && 0.0 <= InjectionFor(buttons, x, y).value.position[1] <= 1.0
  {
  }

  /**
   * The injected colour is opaque, has no green, and is red exactly when
   * button 1 is held and blue exactly when button 3 is held, at full strength.
   */
  lemma ChannelsFromButtons(buttons: map<int, bool>, x: real, y: real)
    requires InjectionFor(buttons, x, y).Some?
    ensures var v := InjectionFor(buttons, x, y).value.velocity;
      |v| == 4 && v[1] == 0.0 && v[3] == 1.0
      && (v[0] == 1.0 <==> Held(buttons, 1)) && (v[0] == 0.0 <==> !Held(buttons, 1))
      && (v[2] == 1.0 <==> Held(buttons, 3)) && (v[2] == 0.0 <==> !Held(buttons, 3))
  {
  }

  /** Other buttons (the middle one, say) never change the injection. */
  lemma OtherButtonsIgnored(buttons: map<int, bool>, b: int, held: bool, x: real, y: real)
    requires b != 1 && b != 3
    ensures InjectionFor(buttons[b := held], x, y) == InjectionFor(buttons, x, y)
  {
    assert Held(buttons[b := held], 1) == Held(buttons, 1);
    assert Held(buttons[b := held], 3) == Held(buttons, 3);
  }

  /** Releasing a button is as if it had never been pressed. */
  lemma ReleaseForgets(buttons: map<int, bool>, b: int, x: real, y: real)
    ensures InjectionFor(buttons[b := true][b := false], x, y) == InjectionFor(buttons[b := false], x, y)
  {
    assert buttons[b := true][b := false] == buttons[b := false];
  }

  /** `jFluidic.Interactor`: the simulator it drives and the buttons held. */
  class Interactor {
    const fluid: Fluid
    var buttons: map<int, bool>

    constructor (fluid: Fluid)
      ensures this.fluid == fluid && buttons == map[]
    {
      this.fluid := fluid;
      buttons := map[];
    }

    /** `_injectVelocity(x, y)`: start, change or stop the injection from the buttons held. */
    method InjectVelocity(x: real, y: real)
      modifies fluid`injectParams
      ensures fluid.injectParams == InjectionFor(buttons, x, y)
    {
      if !(1 in buttons && buttons[1]) && !(3 in buttons && buttons[3]) {
        fluid.StopInject();
        return;
      }
      var px := x / 256.0;
      var py := 1.0 - y / 256.0;
      var r := if 1 in buttons && buttons[1] then 1.0 else 0.0;
      var b := if 3 in buttons && buttons[3] then 1.0 else 0.0;
      fluid.Inject([px, py], [r, 0.0, b, 1.0]);
    }

    /** `_onMouseDown`: button `which` is held from now on. */
    method MouseDown(which: int, x: real, y: real)
      modifies this`buttons, fluid`injectParams
      ensures buttons == old(buttons)[which := true]
      ensures fluid.injectParams == InjectionFor(buttons, x, y)
    {
      buttons := buttons[which := true];
      InjectVelocity(x, y);
    }

    /** `_onMouseMove`: the injection follows the mouse. */
    method MouseMove(x: real, y: real)
      modifies fluid`injectParams
      ensures fluid.injectParams == InjectionFor(buttons, x, y)
    {
      InjectVelocity(x, y);
    }

    /** `_onMouseOut`: leaving the canvas forgets every button and stops the injection. */
    method MouseOut()
      modifies this`buttons, fluid`injectParams
      ensures buttons == map[] && fluid.injectParams == None
    {
      buttons := map[];
      fluid.StopInject();
    }

    /** `_onMouseUp`: button `which` is released. */
    method MouseUp(which: int, x: real, y: real)
      modifies this`buttons, fluid`injectParams
      ensures buttons == old(buttons)[which := false]
      ensures fluid.injectParams == InjectionFor(buttons, x, y)
    {
      buttons := buttons[which := false];
      InjectVelocity(x, y);
    }
  }
}

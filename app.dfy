/** The application handler (src/app.rs): it holds the scene state once one
    exists and routes window events to it. What the event loop and the window
    report while an event is handled (the outcome of acquiring the next surface
    texture, the window's current inner size) arrives as `Surroundings`. */
module App {
  import opened Platform
  import State
  import Camera

  /** The world's answers during one event: what `get_current_texture` yields and what
      `inner_size` reports. */
  datatype Surroundings = Surroundings(acquired: SurfaceResult, innerSize: PhysicalSize)

  /** `window_event` for a held state. */
  function Dispatch(v: State.SceneView, event: WindowEvent, env: Surroundings, math: Camera.CameraMath): State.Step {
    match event
    case CloseRequested => State.Step(v, [State.Exit])
    case Resized(size) => State.ResizeStep(v, size)
    case RedrawRequested =>
      var updated := State.UpdateStep(v, math);
      var rendered := State.RenderStep(updated.view, env.acquired);
      var effects := updated.effects + rendered.effects;
      (match rendered.result
       case Err(Lost) | Err(Outdated) =>
         var resized := State.ResizeStep(updated.view, env.innerSize);
         State.Step(resized.view, effects + resized.effects)
       case Err(e) => State.Step(updated.view, effects + [State.LogRenderError(e)])
       case Ok => State.Step(updated.view, effects))
    case KeyboardInput(Code(code), state) => State.KeyStep(v, code, state.IsPressed())
    case _ => State.Step(v, [])
  }

  datatype AppRun = AppRun(scene: Option<State.SceneView>, effects: seq<Effect>)

  /** `window_event`: without a state every event is ignored. */
  function AppStep(s: Option<State.SceneView>, event: WindowEvent, env: Surroundings, math: Camera.CameraMath): AppRun {
    match s
    case None => AppRun(None, [])
    case Some(v) =>
      var step := Dispatch(v, event, env, math);
      AppRun(Some(step.view), step.effects)
  }

  type Effect = State.Effect

  /** One window event together with what the world answers while it is handled. */
  datatype Input = Input(event: WindowEvent, env: Surroundings)

  /** A sequence of window events handled one after another; the effects are concatenated. */
  function Run(s: Option<State.SceneView>, inputs: seq<Input>, math: Camera.CameraMath): AppRun
    decreases |inputs|
  {
    if inputs == [] then AppRun(s, [])
    else
      var first := AppStep(s, inputs[0].event, inputs[0].env, math);
      var rest := Run(first.scene, inputs[1..], math);
      AppRun(rest.scene, first.effects + rest.effects)
  }

  // ------------------------------------------------------------ one event

  /** Closing the window asks the event loop to exit; a resize event is exactly one `resize`. */
  lemma CloseAndResize(v: State.SceneView, size: PhysicalSize, env: Surroundings, math: Camera.CameraMath)
    ensures Dispatch(v, CloseRequested, env, math) == State.Step(v, [State.Exit])
    ensures Dispatch(v, Resized(size), env, math) == State.ResizeStep(v, size)
  {
  }

  /** A redraw first updates, then renders; when rendering reports a lost or outdated surface the
      state is resized to the window's current size, any other error is only logged, and success
      adds nothing. */
  lemma RedrawRecovery(v: State.SceneView, env: Surroundings, math: Camera.CameraMath)
    ensures var updated := State.UpdateStep(v, math);
      var rendered := State.RenderStep(updated.view, env.acquired);
      var d := Dispatch(v, RedrawRequested, env, math);
      && (rendered.result == Err(Lost) || rendered.result == Err(Outdated) ==>
            d == State.Step(State.ResizeStep(updated.view, env.innerSize).view,
                            updated.effects + rendered.effects + State.ResizeStep(updated.view, env.innerSize).effects))
      && (rendered.result.Err? && rendered.result.error !in {Lost, Outdated} ==>
            d == State.Step(updated.view, updated.effects + rendered.effects + [State.LogRenderError(rendered.result.error)]))
      && (rendered.result == Ok ==> d == State.Step(updated.view, updated.effects + rendered.effects))
  {
  }

  /** A redraw of a configured surface whose texture is lost reconfigures the surface at the
      window's current size, when that size has no zero side. */
  lemma LostSurfaceIsReconfigured(v: State.SceneView, env: Surroundings, math: Camera.CameraMath)
    requires v.isSurfaceConfigured
    requires env.acquired == Err(Lost) || env.acquired == Err(Outdated)
    requires env.innerSize.width >= 1 && env.innerSize.height >= 1
    ensures var d := Dispatch(v, RedrawRequested, env, math);
      && d.view.config.width == env.innerSize.width && d.view.config.height == env.innerSize.height
      && State.ConfigureSurface(d.view.config) in d.effects
      && State.Submit !in d.effects && State.Present !in d.effects
  {
    var d := Dispatch(v, RedrawRequested, env, math);
    var updated := State.UpdateStep(v, math);
    var n := |updated.effects| + 2;
    assert d.effects == updated.effects + [State.RequestRedraw, State.AcquireTexture]
      + [State.ConfigureSurface(d.view.config), State.CreateDepthTexture(d.view.depthTexture)];
    assert d.effects[n] == State.ConfigureSurface(d.view.config);
  }

  // --------------------------------------------------------- event sequences

  /** Without a state nothing happens, whatever the events. */
  lemma {:induction false} NoStateNoEffects(inputs: seq<Input>, math: Camera.CameraMath)
    ensures Run(None, inputs, math) == AppRun(None, [])
    decreases |inputs|
  {
    if inputs != [] {
      NoStateNoEffects(inputs[1..], math);
    }
  }

  /** A run that starts with a state keeps one. */
  lemma {:induction false} RunKeepsState(v: State.SceneView, inputs: seq<Input>, math: Camera.CameraMath)
    ensures Run(Some(v), inputs, math).scene.Some?
    decreases |inputs|
  {
    if inputs != [] {
      RunKeepsState(Dispatch(v, inputs[0].event, inputs[0].env, math).view, inputs[1..], math);
    }
  }

  /** One event keeps the scene invariant and never clears the configured flag. */
  lemma DispatchKeepsInvariant(v: State.SceneView, event: WindowEvent, env: Surroundings, math: Camera.CameraMath)
    requires State.SceneInvariant(v)
    ensures State.SceneInvariant(Dispatch(v, event, env, math).view)
    ensures v.isSurfaceConfigured ==> Dispatch(v, event, env, math).view.isSurfaceConfigured
  {
    var updated := State.UpdateStep(v, math);
    State.StepsKeepInvariant(v, env.innerSize, math, KeyW, true);
    State.StepsKeepInvariant(updated.view, env.innerSize, math, KeyW, true);
    match event
    case Resized(size) => State.StepsKeepInvariant(v, size, math, KeyW, true);
    case KeyboardInput(Code(code), state) => State.StepsKeepInvariant(v, env.innerSize, math, code, state.IsPressed());
    case _ =>
  }

  /** Over any sequence of events the depth target keeps matching the configuration, and once the
      surface is configured it stays configured. */
  lemma {:induction false} RunKeepsInvariant(v: State.SceneView, inputs: seq<Input>, math: Camera.CameraMath)
    requires State.SceneInvariant(v)
    ensures Run(Some(v), inputs, math).scene.Some?
    ensures State.SceneInvariant(Run(Some(v), inputs, math).scene.value)
    ensures v.isSurfaceConfigured ==> Run(Some(v), inputs, math).scene.value.isSurfaceConfigured
    decreases |inputs|
  {
    RunKeepsState(v, inputs, math);
    if inputs != [] {
      DispatchKeepsInvariant(v, inputs[0].event, inputs[0].env, math);
      RunKeepsInvariant(Dispatch(v, inputs[0].event, inputs[0].env, math).view, inputs[1..], math);
    }
  }

  /** No frame work (acquire, draw, submit, present) comes before the first surface configuration. */
  predicate ConfiguredBeforeFrames(t: seq<Effect>) {
    forall i :: 0 <= i < |t| && State.IsFrameWork(t[i]) ==> exists j :: 0 <= j < i && t[j].ConfigureSurface?
  }

  predicate FrameFree(t: seq<Effect>) {
    forall i :: 0 <= i < |t| ==> !State.IsFrameWork(t[i])
  }

  lemma ConfiguredBeforeFramesAppend(a: seq<Effect>, b: seq<Effect>)
    requires FrameFree(a) && ConfiguredBeforeFrames(b)
    ensures ConfiguredBeforeFrames(a + b)
  {
    var t := a + b;
    forall i | 0 <= i < |t| && State.IsFrameWork(t[i]) ensures exists j :: 0 <= j < i && t[j].ConfigureSurface? {
      assert i >= |a| && t[i] == b[i - |a|];
      var j :| 0 <= j < i - |a| && b[j].ConfigureSurface?;
      assert t[|a| + j] == b[j];
    }
  }

  lemma ConfiguredFirst(t: seq<Effect>)
    requires |t| > 0 && t[0].ConfigureSurface?
    ensures ConfiguredBeforeFrames(t)
  {
    forall i | 0 <= i < |t| && State.IsFrameWork(t[i]) ensures exists j :: 0 <= j < i && t[j].ConfigureSurface? {
      assert t[0].ConfigureSurface?;
    }
  }

  /** From an unconfigured surface, one event either configures it, with the configuration as its
      first effect, or leaves it unconfigured without any frame work. */
  lemma UnconfiguredDispatch(v: State.SceneView, event: WindowEvent, env: Surroundings, math: Camera.CameraMath)
    requires !v.isSurfaceConfigured
    ensures var d := Dispatch(v, event, env, math);
      if d.view.isSurfaceConfigured then |d.effects| > 0 && d.effects[0].ConfigureSurface?
      else FrameFree(d.effects)
  {
  }

  /** From an unconfigured surface, whatever the events, nothing is acquired, drawn, submitted or
      presented before the surface has been configured. */
  lemma {:induction false} NoFrameBeforeConfigure(v: State.SceneView, inputs: seq<Input>, math: Camera.CameraMath)
    requires !v.isSurfaceConfigured
    ensures ConfiguredBeforeFrames(Run(Some(v), inputs, math).effects)
    decreases |inputs|
  {
    if inputs != [] {
      var d := Dispatch(v, inputs[0].event, inputs[0].env, math);
      var rest := Run(Some(d.view), inputs[1..], math);
      assert Run(Some(v), inputs, math).effects == d.effects + rest.effects;
      UnconfiguredDispatch(v, inputs[0].event, inputs[0].env, math);
      if d.view.isSurfaceConfigured {
        ConfiguredFirst(d.effects + rest.effects);
      } else {
        NoFrameBeforeConfigure(d.view, inputs[1..], math);
        ConfiguredBeforeFramesAppend(d.effects, rest.effects);
      }
    }
  }

  /** Every submission is presented right after it. */
  predicate SubmitThenPresent(t: seq<Effect>) {
    forall i :: 0 <= i < |t| && t[i].Submit? ==> i + 1 < |t| && t[i + 1].Present?
  }

  lemma SubmitThenPresentAppend(a: seq<Effect>, b: seq<Effect>)
    requires SubmitThenPresent(a) && SubmitThenPresent(b)
    ensures SubmitThenPresent(a + b)
  {
    var t := a + b;
    forall i | 0 <= i < |t| && t[i].Submit? ensures i + 1 < |t| && t[i + 1].Present? {
      if i < |a| {
        assert t[i] == a[i] && t[i + 1] == a[i + 1];
      } else {
        assert t[i] == b[i - |a|] && t[i + 1] == b[i + 1 - |a|];
      }
    }
  }

  lemma DispatchSubmitThenPresent(v: State.SceneView, event: WindowEvent, env: Surroundings, math: Camera.CameraMath)
    ensures SubmitThenPresent(Dispatch(v, event, env, math).effects)
  {
  }

  /** Over any sequence of events every submission is immediately followed by a presentation. */
  lemma {:induction false} RunSubmitThenPresent(s: Option<State.SceneView>, inputs: seq<Input>, math: Camera.CameraMath)
    ensures SubmitThenPresent(Run(s, inputs, math).effects)
    decreases |inputs|
  {
    if inputs != [] {
      var first := AppStep(s, inputs[0].event, inputs[0].env, math);
      if s.Some? {
        DispatchSubmitThenPresent(s.value, inputs[0].event, inputs[0].env, math);
      }
      RunSubmitThenPresent(first.scene, inputs[1..], math);
      SubmitThenPresentAppend(first.effects, Run(first.scene, inputs[1..], math).effects);
    }
  }

  // ------------------------------------------------------------------- App

  /** `App`: the optional scene state. */
  class App {
    var state: Option<State.State>

    function Repr(): set<object>
      reads this
    {
      if state.Some? then {state.value as object, state.value.controller} else {}
    }

    ghost predicate Valid()
      reads this, Repr()
    {
      state.Some? ==> state.value.Valid()
    }

    function Scene(): Option<State.SceneView>
      reads this, Repr()
    {
      if state.Some? then Some(state.value.View()) else None
    }

    /** `App::new`: no state yet. */
    constructor ()
      ensures Valid() && state == None
    {
      state := None;
    }

    /** `user_event`: the delivered state replaces the held one. */
    method UserEvent(s: State.State)
      requires s.Valid()
      modifies this
      ensures Valid() && state == Some(s)
    {
      state := Some(s);
    }

    /** `window_event`: the held state (not the holder) changes as `AppStep` says. */
    method WindowEvent(event: WindowEvent, env: Surroundings) returns (effects: seq<Effect>)
      requires Valid()
      modifies Repr()
      ensures Valid() && state == old(state)
      ensures state.None? ==> effects == []
      ensures state.Some? ==> AppRun(Scene(), effects) == AppStep(old(Scene()), event, env, state.value.math)
    {
      var handle;
      match state {
        case None =>
          return [];
        case Some(s) =>
          handle := s;
      }
      match event {
        case CloseRequested =>
          effects := [State.Exit];
        case Resized(size) =>
          effects := handle.Resize(size);
        case RedrawRequested =>
          effects := handle.Update();
          var result, rendered := handle.Render(env.acquired);
          effects := effects + rendered;
          match result {
            case Err(Lost) | Err(Outdated) =>
              var size := env.innerSize;
              var resized := handle.Resize(size);
              effects := effects + resized;
            case Err(e) =>
              effects := effects + [State.LogRenderError(e)];
            case Ok =>
          }
        case KeyboardInput(Code(code), keyState) =>
          effects := handle.HandleKey(code, keyState.IsPressed());
        case _ =>
          effects := [];
      }
    }
  }
}

/**
 * The outside world the component acts on: the toast notifier, the two web
 * storages and the router. Each is reduced to the part the component uses
 * (`toast.success`, `toast.error`, `sessionStorage.setItem`,
 * `localStorage.setItem`, `navigate`), recorded as a value `World`, and the
 * class `Browser` holds that world as mutable fields.
 */
module Effects {
  import opened Wrappers

  datatype ToastKind = Success | Error

  /**
   * One notification. The text is `None` when the component passes `undefined`
   * (a response body without a `message` member).
   */
  datatype Toast = Toast(kind: ToastKind, text: Option<string>)

  /** One call the component makes on a collaborator. */
  datatype Effect =
    | ShowToast(toast: Toast)
    | SessionSet(key: string, value: string)
    | LocalSet(key: string, value: string)
    | Navigate(path: string)

  /** What the collaborators hold: the toasts shown, the two stores, the paths navigated to. */
  datatype World = World(
    toasts: seq<Toast>,
    session: map<string, string>,
    local: map<string, string>,
    history: seq<string>)

  /** A storage write or a navigation: an effect that is not a notification. */
  predicate IsWrite(e: Effect) {
    e.SessionSet? || e.LocalSet? || e.Navigate?
  }

  /** The world after the collaborator has carried out `e`. */
  function Apply(w: World, e: Effect): World {
    match e
    case ShowToast(t) => w.(toasts := w.toasts + [t])
    case SessionSet(k, v) => w.(session := w.session[k := v])
    case LocalSet(k, v) => w.(local := w.local[k := v])
    case Navigate(p) => w.(history := w.history + [p])
  }

  /** The world after the effects `es`, carried out in order. */
  function ApplyAll(w: World, es: seq<Effect>): World
    decreases |es|
  {
    if es == [] then w else ApplyAll(Apply(w, es[0]), es[1..])
  }

  /** The collaborators as one mutable object, one method per call the component makes. */
  class Browser {
    var toasts: seq<Toast>
    var session: map<string, string>
    var local: map<string, string>
    var history: seq<string>

    function View(): World
      reads this
    {
      World(toasts, session, local, history)
    }

    /** `toast.success(text)` / `toast.error(text)`. */
    method ShowToast(t: Toast)
      modifies this
      ensures View() == Apply(old(View()), Effect.ShowToast(t))
    {
      toasts := toasts + [t];
    }

    /** `sessionStorage.setItem(key, value)`. */
    method SessionSetItem(key: string, value: string)
      modifies this
      ensures View() == Apply(old(View()), SessionSet(key, value))
    {
      session := session[key := value];
    }

    /** `localStorage.setItem(key, value)`. */
    method LocalSetItem(key: string, value: string)
      modifies this
      ensures View() == Apply(old(View()), LocalSet(key, value))
    {
      local := local[key := value];
    }

    /** `navigate(path)`. */
    method NavigateTo(path: string)
      modifies this
      ensures View() == Apply(old(View()), Navigate(path))
    {
      history := history + [path];
    }
  }
}

/** The toast store behind the console's notifications: toasts are pushed
    with defaults filled in and an id generated from a counter when none
    is given, removed by id, and confirm toasts run their callbacks when
    answered. Callbacks are recorded as events; timers are recorded as
    scheduled, not run. */
module ToastProvider {
  import opened Text
  import opened Util

  datatype ToastType = Success | Error | Info | Warning | Confirm

  /** `ToastOptions`; the callbacks are reduced to whether they are given. */
  datatype Options = Options(
    id: Option<string>, toastType: Option<ToastType>, title: Option<string>, message: string,
    duration: Option<int>, confirmLabel: Option<string>, cancelLabel: Option<string>,
    hasOnConfirm: bool, hasOnCancel: bool, hasOnClose: bool)

  datatype Toast = Toast(
    id: string, toastType: ToastType, message: string, title: Option<string>,
    duration: Option<int>, confirmLabel: string, cancelLabel: string,
    hasOnConfirm: bool, hasOnCancel: bool, hasOnClose: bool, createdAt: int)

  /** A callback a toast ran, named by the toast's id. */
  datatype Event = Confirmed(id: string) | Cancelled(id: string) | Closed(id: string)

  /** A message a screen raised through `success`, `error`, `info` or
      `warning`, as the screens' models record it. */
  datatype Notice = Notice(kind: ToastType, message: string)

  /** An auto-removal `push` scheduled: remove toast id after delay ms. */
  datatype Timer = Timer(id: string, delay: int)

  /** `"t_" + n`, the id generated for the n-th toast pushed without one. */
  function GeneratedId(n: nat): string {
    "t_" + NatToString(n)
  }

  /** Generated ids of different counter values differ. */
  lemma GeneratedIdInjective(a: nat, b: nat)
    ensures GeneratedId(a) == GeneratedId(b) ==> a == b
  {
    if GeneratedId(a) == GeneratedId(b) {
      assert NatToString(a) == GeneratedId(a)[2..];
      assert NatToString(b) == GeneratedId(b)[2..];
      NatToStringInjective(a, b);
    }
  }

  /** `opts.x || fallback` for an optional string. */
  function OrDefault(s: Option<string>, fallback: string): (r: string)
    ensures s.Some? && s.value != [] ==> r == s.value
    ensures s.None? || s.value == [] ==> r == fallback
  {
    if s.Some? && s.value != [] then s.value else fallback
  }

  /** The toast `push` builds for the options, id and clock reading. */
  function ToastOf(opts: Options, id: string, now: int): Toast {
    var t := if opts.toastType.Some? then opts.toastType.value else Info;
    Toast(id, t, opts.message, opts.title,
          if opts.toastType == Some(Confirm) then None
          else if opts.duration.Some? then opts.duration else Some(4000),
          OrDefault(opts.confirmLabel, "Yes"), OrDefault(opts.cancelLabel, "No"),
          opts.hasOnConfirm, opts.hasOnCancel, opts.hasOnClose, now)
  }

  /** The defaults of `push`: type "info", labels "Yes" and "No" unless a
      non-empty label is given (so a button is never unlabelled), and a
      duration of 4000 ms unless one is given; a confirm toast has no
      duration, so it is never removed by a timer. */
  lemma ToastOfDefaults(opts: Options, id: string, now: int)
    ensures var t := ToastOf(opts, id, now);
            && t.id == id && t.message == opts.message
            && (opts.toastType.None? ==> t.toastType == Info)
            && (opts.toastType.Some? ==> t.toastType == opts.toastType.value)
            && (opts.toastType == Some(Confirm) <==> t.toastType == Confirm)
            && (t.toastType == Confirm ==> t.duration.None?)
            && (t.toastType != Confirm && opts.duration.None? ==> t.duration == Some(4000))
            && (t.toastType != Confirm && opts.duration.Some? ==> t.duration == opts.duration)
            && (opts.confirmLabel.None? ==> t.confirmLabel == "Yes")
            && (opts.cancelLabel.None? ==> t.cancelLabel == "No")
            && (opts.confirmLabel == Some("") ==> t.confirmLabel == "Yes")
            && (opts.cancelLabel == Some("") ==> t.cancelLabel == "No")
            && t.confirmLabel != [] && t.cancelLabel != []
  {
  }

  /** `{ ...opts, type, message, title }`: the options a typed helper
      passes to `push`. The title is always the helper's own argument. */
  function Typed(opts: Options, t: ToastType, message: string, title: Option<string>): Options {
    opts.(toastType := Some(t), message := message, title := title)
  }

  /** `{ ...opts, type: "confirm" }` */
  function AsConfirm(opts: Options): Options {
    opts.(toastType := Some(Confirm))
  }

  /** A typed helper's type wins over any type in the options, and a
      confirm never gets a duration. */
  lemma HelpersForceType(opts: Options, t: ToastType, message: string, title: Option<string>,
                         id: string, now: int)
    ensures ToastOf(Typed(opts, t, message, title), id, now).toastType == t
    ensures ToastOf(Typed(opts, t, message, title), id, now).title == title
    ensures ToastOf(AsConfirm(opts), id, now).toastType == Confirm
    ensures ToastOf(AsConfirm(opts), id, now).duration.None?
  {
  }

  /** The toasts left by `remove(id)`. */
  function Without(toasts: seq<Toast>, id: string): seq<Toast> {
    Filter(toasts, (t: Toast) => t.id != id)
  }

  /** `remove(id)` drops exactly the toasts with that id. */
  lemma WithoutMeaning(toasts: seq<Toast>, id: string, x: Toast)
    ensures x in Without(toasts, id) <==> x in toasts && x.id != id
  {
    FilterMembership(toasts, (t: Toast) => t.id != id, x);
  }

  class ToastStore {
    var toasts: seq<Toast>
    /** `idRef.current` */
    var counter: nat
    var timers: seq<Timer>
    var events: seq<Event>
    /** The counter values already used for generated ids. */
    ghost var issued: set<nat>

    ghost predicate Valid()
      reads this
    {
      forall n :: n in issued ==> 1 <= n <= counter
    }

    constructor ()
      ensures Valid() && toasts == [] && counter == 0 && timers == [] && events == [] && issued == {}
    {
      toasts := [];
      counter := 0;
      timers := [];
      events := [];
      issued := {};
    }

    /** `push(opts)` at clock reading now. A fresh id never repeats an id
        generated before; the toast is appended at the end; an
        auto-removal is scheduled exactly when the duration is non-zero. */
    method Push(opts: Options, now: int) returns (id: string)
      requires Valid()
      modifies this
      ensures Valid()
      ensures events == old(events)
      ensures opts.id.Some? && opts.id.value != [] ==>
                id == opts.id.value && counter == old(counter) && issued == old(issued)
      ensures opts.id.None? || opts.id.value == [] ==>
                && counter == old(counter) + 1 && id == GeneratedId(counter)
                && issued == old(issued) + {counter}
                && forall n :: n in old(issued) ==> id != GeneratedId(n)
      ensures toasts == old(toasts) + [ToastOf(opts, id, now)]
      ensures var d := ToastOf(opts, id, now).duration;
              timers == old(timers) + (if d.Some? && d.value != 0 then [Timer(id, d.value)] else [])
    {
      if opts.id.Some? && opts.id.value != [] {
        id := opts.id.value;
      } else {
        counter := counter + 1;
        id := GeneratedId(counter);
        issued := issued + {counter};
        forall n | n in old(issued) ensures id != GeneratedId(n) {
          GeneratedIdInjective(n, counter);
        }
      }
      var toast := ToastOf(opts, id, now);
      toasts := toasts + [toast];
      if toast.duration.Some? && toast.duration.value != 0 {
        timers := timers + [Timer(id, toast.duration.value)];
      }
    }

    /** `remove(id)` */
    method Remove(id: string)
      modifies this`toasts
      ensures toasts == Without(old(toasts), id)
    {
      toasts := Without(toasts, id);
    }

    /** `success(msg, title, opts)`, `error`, `info` and `warning`. */
    method Notify(t: ToastType, message: string, title: Option<string>, opts: Options, now: int)
      returns (id: string)
      requires Valid() && t != Confirm
      modifies this
      ensures Valid()
      ensures events == old(events)
      ensures opts.id.Some? && opts.id.value != [] ==>
                id == opts.id.value && counter == old(counter) && issued == old(issued)
      ensures opts.id.None? || opts.id.value == [] ==>
                && counter == old(counter) + 1 && id == GeneratedId(counter)
                && issued == old(issued) + {counter}
                && forall n :: n in old(issued) ==> id != GeneratedId(n)
      ensures toasts == old(toasts) + [ToastOf(Typed(opts, t, message, title), id, now)]
      ensures toasts[|toasts| - 1].toastType == t
      ensures var d := if opts.duration.Some? then opts.duration.value else 4000;
              timers == old(timers) + (if d != 0 then [Timer(id, d)] else [])
    {
      id := Push(Typed(opts, t, message, title), now);
      HelpersForceType(opts, t, message, title, id, now);
    }

    /** `confirm(opts)` */
    method AskConfirm(opts: Options, now: int) returns (id: string)
      requires Valid()
      modifies this
      ensures Valid()
      ensures events == old(events)
      ensures opts.id.Some? && opts.id.value != [] ==>
                id == opts.id.value && counter == old(counter) && issued == old(issued)
      ensures opts.id.None? || opts.id.value == [] ==>
                && counter == old(counter) + 1 && id == GeneratedId(counter)
                && issued == old(issued) + {counter}
                && forall n :: n in old(issued) ==> id != GeneratedId(n)
      ensures toasts == old(toasts) + [ToastOf(AsConfirm(opts), id, now)]
      ensures toasts[|toasts| - 1].toastType == Confirm && toasts[|toasts| - 1].duration.None?
      ensures timers == old(timers)
    {
      id := Push(AsConfirm(opts), now);
      HelpersForceType(opts, Confirm, opts.message, opts.title, id, now);
    }

    /** `handleConfirm(toast, confirm)`: the toast is removed first, then
        its `onConfirm` or `onCancel` runs, and `onClose` always runs last. */
    method HandleConfirm(toast: Toast, confirm: bool)
      modifies this`toasts, this`events
      ensures toasts == Without(old(toasts), toast.id)
      ensures events == old(events)
                        + (if confirm && toast.hasOnConfirm then [Confirmed(toast.id)] else [])
                        + (if !confirm && toast.hasOnCancel then [Cancelled(toast.id)] else [])
                        + (if toast.hasOnClose then [Closed(toast.id)] else [])
    {
      Remove(toast.id);
      if confirm {
        if toast.hasOnConfirm {
          events := events + [Confirmed(toast.id)];
        }
      } else {
        if toast.hasOnCancel {
          events := events + [Cancelled(toast.id)];
        }
      }
      if toast.hasOnClose {
        events := events + [Closed(toast.id)];
      }
    }
  }
}

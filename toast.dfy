/** The toast list behind `useToast`: notifications are appended, dismissed
    by position, and each one expires on its own after a delay. The delay
    itself is not modelled; its effect is the explicit `Expire` call. */
module Toasts {
  import opened Wrappers
  import Seqs

  datatype Variant = Default | Destructive

  /** The props object passed to `toast`. Toasts are told apart by object
      identity, so the props are a class and compared by reference. */
  class ToastProps {
    const title: Option<string>
    const description: Option<string>
    const variant: Option<Variant>

    constructor (title: Option<string>, description: Option<string>, variant: Option<Variant>)
      ensures this.title == title && this.description == description && this.variant == variant
    {
      this.title := title;
      this.description := description;
      this.variant := variant;
    }
  }

  /** `toasts.filter((_, i) => i !== index)` */
  function DropIndex<T>(s: seq<T>, index: int): (r: seq<T>)
    ensures 0 <= index < |s| ==> r == s[..index] + s[index + 1..]
    ensures !(0 <= index < |s|) ==> r == s
  {
    if s == [] then []
    else (if index == 0 then [] else [s[0]]) + DropIndex(s[1..], index - 1)
  }

  /** `toasts.filter(t => t !== props)` */
  function WithoutToast(s: seq<ToastProps>, props: ToastProps): (r: seq<ToastProps>)
    ensures props !in r
    ensures Seqs.IsSubsequence(r, s)
    ensures forall i :: 0 <= i < |s| && s[i] != props ==> s[i] in r
  {
    var keep := (t: ToastProps) => t != props;
    Seqs.FilterIsSubsequence(s, keep);
    Seqs.Filter(s, keep)
  }

  /** Expiry removes every occurrence of the expired props and keeps every
      occurrence of any other. */
  lemma WithoutToastCount(s: seq<ToastProps>, props: ToastProps, t: ToastProps)
    ensures multiset(WithoutToast(s, props))[t] == if t == props then 0 else multiset(s)[t]
  {
    Seqs.FilterCount(s, (u: ToastProps) => u != props, t);
  }

  /** A toast shown once and then expired leaves the list as it was before,
      whatever was dismissed or shown before it. */
  lemma ExpireUndoesToast(s: seq<ToastProps>, props: ToastProps)
    requires props !in s
    ensures WithoutToast(s + [props], props) == s
  {
    var keep := (t: ToastProps) => t != props;
    Seqs.FilterConcat(s, [props], keep);
    Seqs.FilterKeepsAll(s, keep);
  }

  /** The `toasts` state cell with its three updates. */
  class ToastList {
    var toasts: seq<ToastProps>

    constructor ()
      ensures toasts == []
    {
      toasts := [];
    }

    /** `toast(props)`: shows the toast after the existing ones. */
    method Toast(props: ToastProps)
      modifies this
      ensures toasts == old(toasts) + [props]
    {
      toasts := toasts + [props];
    }

    /** `dismiss(index)` */
    method Dismiss(index: int)
      modifies this
      ensures toasts == DropIndex(old(toasts), index)
    {
      toasts := DropIndex(toasts, index);
    }

    /** The auto-dismiss timer of `toast(props)` firing. */
    method Expire(props: ToastProps)
      modifies this
      ensures toasts == WithoutToast(old(toasts), props)
    {
      toasts := WithoutToast(toasts, props);
    }
  }
}

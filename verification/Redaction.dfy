/**
 Recursive redaction (`_redacted` in scripts/poc_workload_reconciliation.py): the engine's secret wrappers,
 at whatever depth, as the preview shows them.
 */
module Redaction {
  import opened Options
  import opened Texts
  import opened Json
  import opened RegistryRows

  const VALUE: Text := T("value")
  const CIPHERTEXT: Text := T("ciphertext")

  /** The two shapes a secret wrapper may have. */
  predicate WellShaped(m: Members) {
    m.Keys == {MARKER, VALUE} || m.Keys == {MARKER, CIPHERTEXT}
  }

  predicate Wrapper(v: Value) {
    v.Obj? && Envelope(v.members) && WellShaped(v.members)
  }

  /** `_redacted`: `None` where the program raises. */
  function Redact(v: Value): Option<Value> {
    match v
    case Obj(m) =>
      if Envelope(m) then if WellShaped(m) then Some(SECRET) else None
      else if forall k :: k in m ==> Redact(m[k]).Some? then Some(Obj(map k | k in m :: Redact(m[k]).value))
      else None
    case Arr(items) =>
      if forall i :: 0 <= i < |items| ==> Redact(items[i]).Some?
      then Some(Arr(seq(|items|, i requires 0 <= i < |items| => Redact(items[i]).value)))
      else None
    case _ => Some(v)
  }

  /** No object at any depth is marked as a secret. */
  predicate Unmarked(v: Value) {
    match v
    case Obj(m) => !Envelope(m) && forall k :: k in m ==> Unmarked(m[k])
    case Arr(items) => forall i :: 0 <= i < |items| ==> Unmarked(items[i])
    case _ => true
  }

  /** Every marked object, not looking inside one, has one of the two shapes. */
  predicate WellMarked(v: Value) {
    match v
    case Obj(m) => if Envelope(m) then WellShaped(m) else forall k :: k in m ==> WellMarked(m[k])
    case Arr(items) => forall i :: 0 <= i < |items| ==> WellMarked(items[i])
    case _ => true
  }

  /** The same value but for the contents of secret wrappers. */
  predicate AgreeOutsideSecrets(a: Value, b: Value) {
    || (Wrapper(a) && Wrapper(b))
    || match a
       case Obj(m) =>
         && !Envelope(m) && b.Obj? && !Envelope(b.members) && m.Keys == b.members.Keys
         && forall k :: k in m ==> AgreeOutsideSecrets(m[k], b.members[k])
       case Arr(items) =>
         b.Arr? && |items| == |b.items| && forall i :: 0 <= i < |items| ==> AgreeOutsideSecrets(items[i], b.items[i])
       case _ => a == b
  }

  /** The placeholder does not occur as a string of its own outside secret wrappers. */
  predicate NoPlaceholder(v: Value) {
    match v
    case Obj(m) => Envelope(m) || forall k :: k in m ==> NoPlaceholder(m[k])
    case Arr(items) => forall i :: 0 <= i < |items| ==> NoPlaceholder(items[i])
    case _ => v != SECRET
  }

  lemma {:induction false} PlaceholderIsNoSentinel()
    ensures SECRET != SENTINEL
  {
  }

  /** Redaction fails only on a malformed wrapper, and its result has no wrapper at any depth. */
  lemma {:induction false} RedactUnmarks(v: Value)
    ensures Redact(v).Some? <==> WellMarked(v)
    ensures Redact(v).Some? ==> Unmarked(Redact(v).value)
  {
    match v
    case Obj(m) =>
      forall k | k in m && !Envelope(m)
        ensures Redact(m[k]).Some? <==> WellMarked(m[k])
        ensures Redact(m[k]).Some? ==> Unmarked(Redact(m[k]).value)
      {
        RedactUnmarks(m[k]);
      }
      if Redact(v).Some? && !Envelope(m) && MARKER in m {
        PlaceholderIsNoSentinel();
        RedactedString(m[MARKER]);
      }
    case Arr(items) =>
      forall i | 0 <= i < |items|
        ensures Redact(items[i]).Some? <==> WellMarked(items[i])
        ensures Redact(items[i]).Some? ==> Unmarked(Redact(items[i]).value)
      {
        RedactUnmarks(items[i]);
      }
    case _ =>
  }

  /** What redacts to a string is that string, or a secret. */
  lemma {:induction false} RedactedString(v: Value)
    ensures Redact(v).Some? && Redact(v).value.Str? ==> Redact(v).value == v || Redact(v).value == SECRET
  {
  }

  /** Redaction leaves a value without wrappers alone. */
  lemma {:induction false} RedactUnmarked(v: Value)
    requires Unmarked(v)
    ensures Redact(v) == Some(v)
  {
    match v
    case Obj(m) =>
      forall k | k in m ensures Redact(m[k]) == Some(m[k]) {
        RedactUnmarked(m[k]);
      }
      assert Redact(v).value.members == m;
    case Arr(items) =>
      forall i | 0 <= i < |items| ensures Redact(items[i]) == Some(items[i]) {
        RedactUnmarked(items[i]);
      }
      assert Redact(v).value.items == items;
    case _ =>
  }

  lemma {:induction false} RedactIdempotent(v: Value)
    requires Redact(v).Some?
    ensures Redact(Redact(v).value) == Redact(v)
  {
    RedactUnmarks(v);
    RedactUnmarked(Redact(v).value);
  }

  /** Inputs that differ only inside secrets are shown alike. */
  lemma {:induction false} RedactHidesSecrets(a: Value, b: Value)
    requires AgreeOutsideSecrets(a, b)
    ensures Redact(a).Some? && Redact(a) == Redact(b)
  {
    if !(Wrapper(a) && Wrapper(b)) {
      match a
      case Obj(m) =>
        forall k | k in m ensures Redact(m[k]).Some? && Redact(m[k]) == Redact(b.members[k]) {
          RedactHidesSecrets(m[k], b.members[k]);
        }
        assert Redact(a).value.members == Redact(b).value.members;
      case Arr(items) =>
        forall i | 0 <= i < |items| ensures Redact(items[i]).Some? && Redact(items[i]) == Redact(b.items[i]) {
          RedactHidesSecrets(items[i], b.items[i]);
        }
        assert Redact(a).value.items == Redact(b).value.items;
      case _ =>
    }
  }

  /** Nothing else is hidden: what is shown alike differs only inside secrets. */
  lemma {:induction false} RedactShowsTheRest(a: Value, b: Value)
    requires NoPlaceholder(a) && NoPlaceholder(b)
    requires Redact(a).Some? && Redact(a) == Redact(b)
    ensures AgreeOutsideSecrets(a, b)
  {
    if !Wrapper(a) && !Wrapper(b) {
      match a
      case Obj(m) =>
        var shown := Redact(a).value.members;
        assert shown.Keys == m.Keys && Redact(b).value.members.Keys == b.members.Keys;
        forall k | k in m ensures k in b.members && AgreeOutsideSecrets(m[k], b.members[k]) {
          assert shown[k] == Redact(m[k]).value;
          RedactShowsTheRest(m[k], b.members[k]);
        }
      case Arr(items) =>
        var shown := Redact(a).value.items;
        forall i | 0 <= i < |items| ensures i < |b.items| && AgreeOutsideSecrets(items[i], b.items[i]) {
          assert shown[i] == Redact(items[i]).value;
          RedactShowsTheRest(items[i], b.items[i]);
        }
      case _ =>
    }
  }

  /** A literal placeholder, though, is shown like a secret. */
  lemma {:induction false} PlaceholderLooksSecret(secret: Value)
    requires Wrapper(secret)
    ensures secret != SECRET && Redact(secret) == Redact(SECRET) && !AgreeOutsideSecrets(SECRET, secret)
  {
  }
}

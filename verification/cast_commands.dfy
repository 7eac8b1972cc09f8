/** The post-run hooks of the Cast commands `clone`, `checkout` and `rm`:
    after git has run, each decides whether the model serializer re-reads
    the model from the files (`unserializeModel`). The serializer is an
    external collaborator; only the calls made to it are recorded. */
module CastCommands {
  import opened PhpValues

  /** A call on the model serializer. */
  datatype SerializerCall = Serialize | Unserialize

  /** The model serializer, reduced to the log of calls it receives. */
  class Serializer {
    var calls: seq<SerializerCall>

    constructor ()
      ensures calls == []
    {
      calls := [];
    }

    /** `unserializeModel()`: one more call in the log. */
    method UnserializeModel()
      modifies this`calls
      ensures calls == old(calls) + [Unserialize]
    {
      calls := calls + [Unserialize];
    }
  }

  // ---------------------------------------------------------------------
  // The calls each hook makes

  /** The calls the `clone` hook makes: one `unserializeModel` when neither
      `no-checkout` nor `n` is set and the options ask for serialization,
      none otherwise. */
  function CloneHookCalls(opts: Options, shouldSerialize: Options -> bool): (calls: seq<SerializerCall>)
    ensures calls == [] || calls == [Unserialize]
    ensures calls == [Unserialize]
        <==> !Flag(opts, "no-checkout") && !Flag(opts, "n") && shouldSerialize(opts)
  {
    if !Flag(opts, "no-checkout") && !Flag(opts, "n") && shouldSerialize(opts) then [Unserialize] else []
  }

  /** The calls the `checkout` hook makes: one `unserializeModel` exactly
      when the options ask for serialization. */
  function CheckoutHookCalls(opts: Options, shouldSerialize: Options -> bool): (calls: seq<SerializerCall>)
    ensures calls == [] || calls == [Unserialize]
    ensures calls == [Unserialize] <==> shouldSerialize(opts)
  {
    if shouldSerialize(opts) then [Unserialize] else []
  }

  /** The calls the `rm` hook makes: one `unserializeModel` exactly when the
      command runs in implicit mode. */
  function RmHookCalls(opts: Options, isImplicitMode: Options -> bool): (calls: seq<SerializerCall>)
    ensures calls == [] || calls == [Unserialize]
    ensures calls == [Unserialize] <==> isImplicitMode(opts)
  {
    if isImplicitMode(opts) then [Unserialize] else []
  }

  // ---------------------------------------------------------------------
  // The hooks

  /** `cast clone`. `shouldSerialize` is the command's serialization test. */
  class CastClone {
    const serializer: Serializer
    const shouldSerialize: Options -> bool

    constructor (serializer: Serializer, shouldSerialize: Options -> bool)
      ensures this.serializer == serializer && this.shouldSerialize == shouldSerialize
    {
      this.serializer := serializer;
      this.shouldSerialize := shouldSerialize;
    }

    /** `afterRun($args, $opts)`: the positional arguments play no part. */
    method AfterRun(args: seq<Value>, opts: Options)
      modifies serializer`calls
      ensures serializer.calls == old(serializer.calls) + CloneHookCalls(opts, shouldSerialize)
    {
      if !Flag(opts, "no-checkout") && !Flag(opts, "n") && shouldSerialize(opts) {
        serializer.UnserializeModel();
      }
    }
  }

  /** `cast checkout`. */
  class CastCheckout {
    const serializer: Serializer
    const shouldSerialize: Options -> bool

    constructor (serializer: Serializer, shouldSerialize: Options -> bool)
      ensures this.serializer == serializer && this.shouldSerialize == shouldSerialize
    {
      this.serializer := serializer;
      this.shouldSerialize := shouldSerialize;
    }

    /** `afterRun($args, $opts)`: the positional arguments play no part. */
    method AfterRun(args: seq<Value>, opts: Options)
      modifies serializer`calls
      ensures serializer.calls == old(serializer.calls) + CheckoutHookCalls(opts, shouldSerialize)
    {
      if shouldSerialize(opts) {
        serializer.UnserializeModel();
      }
    }
  }

  /** `cast rm`. `isImplicitMode` is the command's implicit-mode test. */
  class CastRm {
    const serializer: Serializer
    const isImplicitMode: Options -> bool

    constructor (serializer: Serializer, isImplicitMode: Options -> bool)
      ensures this.serializer == serializer && this.isImplicitMode == isImplicitMode
    {
      this.serializer := serializer;
      this.isImplicitMode := isImplicitMode;
    }

    /** `afterRun($args, $opts)`: the positional arguments play no part. */
    method AfterRun(args: seq<Value>, opts: Options)
      modifies serializer`calls
      ensures serializer.calls == old(serializer.calls) + RmHookCalls(opts, isImplicitMode)
    {
      if isImplicitMode(opts) {
        serializer.UnserializeModel();
      }
    }
  }

  // ---------------------------------------------------------------------
  // Properties of the hooks

  /** With `no-checkout` or `n` set, `clone` leaves the model alone whatever
      the serialization test says. */
  lemma CloneSkipsWithoutCheckout(opts: Options, shouldSerialize: Options -> bool)
    requires Flag(opts, "no-checkout") || Flag(opts, "n")
    ensures CloneHookCalls(opts, shouldSerialize) == []
  {
  }

  /** `clone` re-reads the model only when `checkout` would, and exactly
      when `checkout` would once neither `no-checkout` nor `n` is set. */
  lemma CloneStricterThanCheckout(opts: Options, shouldSerialize: Options -> bool)
    ensures CloneHookCalls(opts, shouldSerialize) <= CheckoutHookCalls(opts, shouldSerialize)
    ensures !Flag(opts, "no-checkout") && !Flag(opts, "n") ==>
              CloneHookCalls(opts, shouldSerialize) == CheckoutHookCalls(opts, shouldSerialize)
  {
  }

  /** `checkout` does not look at `no-checkout` or `n`: adding either flag
      changes nothing when the serialization test ignores it. */
  lemma CheckoutIgnoresCloneFlags(opts: Options, key: string, v: Value, shouldSerialize: Options -> bool)
    requires key == "no-checkout" || key == "n"
    requires shouldSerialize(opts[key := v]) == shouldSerialize(opts)
    ensures CheckoutHookCalls(opts[key := v], shouldSerialize) == CheckoutHookCalls(opts, shouldSerialize)
  {
  }

  /** `rm` consults only the implicit-mode test, never the serialization
      test: two commands that agree on implicit mode make the same calls. */
  lemma RmOnlyImplicitMode(opts: Options, other: Options, isImplicitMode: Options -> bool)
    requires isImplicitMode(opts) == isImplicitMode(other)
    ensures RmHookCalls(opts, isImplicitMode) == RmHookCalls(other, isImplicitMode)
  {
  }

  /** Each hook adds at most one call, and never `serializeModel` (`Serialize`). */
  lemma HooksOnlyUnserialize(opts: Options, shouldSerialize: Options -> bool, isImplicitMode: Options -> bool)
    ensures forall c :: c in CloneHookCalls(opts, shouldSerialize) ==> c == Unserialize
    ensures forall c :: c in CheckoutHookCalls(opts, shouldSerialize) ==> c == Unserialize
    ensures forall c :: c in RmHookCalls(opts, isImplicitMode) ==> c == Unserialize
  {
  }
}

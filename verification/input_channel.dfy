/** The native side of android.view.InputChannel: a heap-allocated wrapper around one
    input-channel endpoint with a single dispose-callback slot, and the JNI entry
    points that create, duplicate, dispose, destroy, name and marshal wrappers. A Java
    `long` holding a wrapper pointer is a `NativeInputChannel?`, 0 being `null`; a
    null strong pointer to an endpoint is `None`. Results of the endpoint library
    (opening a pair, duplicating an endpoint) are parameters, since that code is not
    part of this model. A raised Java exception is the returned `JniError`. */
module InputChannelJni {
  import opened Wrappers
  import opened Transport

  /** A registered dispose callback (a function pointer). */
  datatype DisposeCallback = DisposeCallback(id: nat)

  /** The opaque data pointer handed back to the callback; `None` is nullptr. */
  datatype CallbackData = CallbackData(id: nat)

  /** One call of a dispose callback: which callback, with the wrapper's endpoint and
      the registered data. */
  datatype Invocation = Invocation(callback: DisposeCallback, channel: Option<InputChannel>, data: Option<CallbackData>)

  /** The RuntimeExceptions the entry points raise. */
  datatype JniError =
    | OpenPairFailed(status: int)   // the library could not open a socket pair
    | NoNativeChannel               // the Java object has no wrapper
    | NoInputChannel                // the wrapper holds no endpoint
    | DupFailed(channelName: string) // the library could not duplicate the endpoint

  class NativeInputChannel {
    /** The wrapped endpoint; fixed for the wrapper's lifetime, possibly null. */
    const channel: Option<InputChannel>
    var disposeCallback: Option<DisposeCallback>
    var disposeData: Option<CallbackData>
    /** How many non-null callbacks have been registered on this wrapper. */
    ghost var registrations: nat
    /** Every callback invocation made on this wrapper, in order. */
    ghost var invocations: seq<Invocation>

    /** Each registration fires at most once: the calls made so far, plus the one still
        pending in the slot, never outnumber the registrations. */
    ghost predicate Valid()
      reads this
    {
      |invocations| + (if disposeCallback.Some? then 1 else 0) <= registrations
    }

    /** A fresh wrapper holds no callback. */
    constructor (channel: Option<InputChannel>)
      ensures this.channel == channel
      ensures disposeCallback.None? && disposeData.None?
      ensures registrations == 0 && invocations == []
      ensures Valid()
    {
      this.channel := channel;
      disposeCallback := None;
      disposeData := None;
      registrations := 0;
      invocations := [];
    }

    /** Stores the callback and its data, replacing whatever was stored, without error. */
    method SetDisposeCallback(callback: Option<DisposeCallback>, data: Option<CallbackData>)
      requires Valid()
      modifies this`disposeCallback, this`disposeData, this`registrations
      ensures Valid()
      ensures disposeCallback == callback && disposeData == data
      ensures registrations == old(registrations) + (if callback.Some? then 1 else 0)
    {
      disposeCallback := callback;
      disposeData := data;
      if callback.Some? {
        registrations := registrations + 1;
      }
    }

    /** Runs the stored callback, if any, on this wrapper's endpoint and data, then
        empties both slots, so a second call runs nothing. */
    method InvokeAndRemoveDisposeCallback()
      requires Valid()
      modifies this`disposeCallback, this`disposeData, this`invocations
      ensures Valid()
      ensures disposeCallback.None?
      ensures old(disposeCallback).Some? ==>
        && invocations == old(invocations) + [Invocation(old(disposeCallback).value, channel, old(disposeData))]
        && disposeData.None?
      ensures old(disposeCallback).None? ==> invocations == old(invocations) && disposeData == old(disposeData)
    {
      if disposeCallback.Some? {
        invocations := invocations + [Invocation(disposeCallback.value, channel, disposeData)];
        disposeCallback := None;
        disposeData := None;
      }
    }
  }

  /** The wrappers currently allocated on the native heap: `new` adds one, `delete`
      removes it. */
  class NativeHeap {
    ghost var live: set<NativeInputChannel>

    constructor ()
      ensures live == {}
    {
      live := {};
    }
  }

  /** The endpoint behind a Java object's wrapper; null for an object without one. */
  function GetInputChannel(w: NativeInputChannel?): (c: Option<InputChannel>)
    ensures w == null ==> c.None?
    ensures w != null ==> c == w.channel
  {
    if w != null then w.channel else None
  }

  /** Registers a dispose callback through a Java object. An object without a wrapper
      registers nothing (a warning is logged); otherwise the wrapper's slot is
      overwritten. */
  method SetDisposeCallback(w: NativeInputChannel?, callback: Option<DisposeCallback>, data: Option<CallbackData>)
    returns (registered: bool)
    requires w != null ==> w.Valid()
    modifies w
    ensures registered <==> w != null
    ensures w != null ==> w.Valid() && w.disposeCallback == callback && w.disposeData == data
    ensures w != null ==> w.invocations == old(w.invocations)
    ensures w != null ==> w.registrations == old(w.registrations) + (if callback.Some? then 1 else 0)
  {
    if w == null {
      return false;
    }
    w.SetDisposeCallback(callback, data);
    registered := true;
  }

  /** Allocates a wrapper around an endpoint and hands out its pointer. */
  method CreateInputChannel(heap: NativeHeap, c: Option<InputChannel>) returns (w: NativeInputChannel)
    modifies heap
    ensures fresh(w) && w.channel == c && w.disposeCallback.None? && w.Valid() && w.invocations == []
    ensures heap.live == old(heap.live) + {w}
  {
    w := new NativeInputChannel(c);
    heap.live := heap.live + {w};
  }

  /** `nativeOpenInputChannelPair`: `status`, `server` and `client` are what the library
      reported for the pair it was asked to open. A non-zero status raises and returns
      null with no wrapper allocated; otherwise a two-slot array holds a fresh wrapper
      for the server endpoint at 0 and one for the client endpoint at 1, both with an
      empty callback slot. */
  method NativeOpenInputChannelPair(heap: NativeHeap, status: int, server: Option<InputChannel>, client: Option<InputChannel>)
    returns (pair: array?<NativeInputChannel?>, error: Option<JniError>)
    modifies heap
    ensures status != 0 ==> pair == null && error == Some(OpenPairFailed(status)) && heap.live == old(heap.live)
    ensures status == 0 ==> error.None? && pair != null && fresh(pair) && pair.Length == 2
    ensures status == 0 ==> pair[0] != null && pair[1] != null && pair[0] != pair[1]
    ensures status == 0 ==> fresh(pair[0]) && fresh(pair[1])
    ensures status == 0 ==> pair[0].channel == server && pair[1].channel == client
    ensures status == 0 ==> pair[0].disposeCallback.None? && pair[1].disposeCallback.None?
    ensures status == 0 ==> pair[0].Valid() && pair[1].Valid()
    ensures status == 0 ==> pair[0].invocations == [] && pair[1].invocations == []
    ensures status == 0 ==> heap.live == old(heap.live) + {pair[0], pair[1]}
  {
    if status != 0 {
      return null, Some(OpenPairFailed(status));
    }
    pair := new NativeInputChannel?[2];
    var s := CreateInputChannel(heap, server);
    pair[0] := s;
    var c := CreateInputChannel(heap, client);
    pair[1] := c;
    error := None;
  }

  /** The native finalizer: deletes a non-null wrapper and does nothing for null. It
      never runs the dispose callback; disposing and freeing are separate steps. */
  method NativeDestroy(heap: NativeHeap, w: NativeInputChannel?)
    requires w != null ==> w in heap.live
    modifies heap
    ensures w != null ==> heap.live == old(heap.live) - {w}
    ensures w == null ==> heap.live == old(heap.live)
    ensures w != null ==> unchanged(w)
  {
    if w != null {
      heap.live := heap.live - {w};
    }
  }

  /** `nativeDispose`: runs and clears the wrapper's callback; a null wrapper is left
      alone. Disposing twice runs the callback once. */
  method NativeDispose(w: NativeInputChannel?)
    requires w != null ==> w.Valid()
    modifies w
    ensures w != null ==> w.Valid() && w.disposeCallback.None?
    ensures w != null && old(w.disposeCallback).Some? ==>
      w.invocations == old(w.invocations) + [Invocation(old(w.disposeCallback).value, w.channel, old(w.disposeData))]
    ensures w != null && old(w.disposeCallback).None? ==> w.invocations == old(w.invocations)
    ensures w != null ==> w.disposeData == (if old(w.disposeCallback).Some? then None else old(w.disposeData))
    ensures w != null ==> w.registrations == old(w.registrations)
  {
    if w != null {
      w.InvokeAndRemoveDisposeCallback();
    }
  }

  /** What `nativeWriteToParcel` appends for a wrapper around endpoint `c`, or for a
      null wrapper when `c` is `None`: the tag 1 and the endpoint's own encoding, or
      the tag 0 alone. */
  function EnvelopeOf(c: Option<InputChannel>): (items: seq<ParcelItem>)
    ensures c.None? <==> items == [Int32(0)]
    ensures c.Some? ==> items == [Int32(1)] + EncodeChannel(c.value)
  {
    match c
    case None => [Int32(0)]
    case Some(ch) => [Int32(1)] + EncodeChannel(ch)
  }

  /** What `nativeReadFromParcel` finds: no wrapper, or a wrapper around a possibly
      null endpoint; `next` is where the cursor ends up. */
  datatype EnvelopeRead = Absent(next: nat) | Present(channel: Option<InputChannel>, next: nat)

  /** Reads the tag at `pos`; any non-zero tag is followed by the endpoint's encoding. */
  function ReadEnvelope(data: seq<ParcelItem>, pos: nat): (r: EnvelopeRead)
    ensures r.Absent? <==> !(pos < |data| && data[pos].Int32? && data[pos].v != 0)
    ensures r.Present? ==> r.next == pos + 1 + (if r.channel.Some? then CHANNEL_ITEMS else 0)
    ensures r.Present? && r.channel.Some? ==> r.next <= |data| && data[pos + 1..r.next] == EncodeChannel(r.channel.value)
    ensures r.Absent? ==> r.next == if pos < |data| && data[pos].Int32? then pos + 1 else pos
  {
    var (tag, afterTag) := ReadInt32At(data, pos);
    if tag != 0 then
      var (c, next) := DecodeChannel(data, afterTag);
      Present(c, next)
    else
      Absent(afterTag)
  }

  /** Writing a wrapper or a null and reading at the same place gives back exactly
      "no wrapper" or a wrapper around the same endpoint, and the cursor lands right
      after what was written. */
  lemma EnvelopeRoundTrip(prefix: seq<ParcelItem>, c: Option<InputChannel>, suffix: seq<ParcelItem>)
    ensures ReadEnvelope(prefix + EnvelopeOf(c) + suffix, |prefix|)
      == if c.None? then Absent(|prefix| + 1) else Present(c, |prefix| + |EnvelopeOf(c)|)
  {
  }

  /** The items a sequence of wrappers (or nulls) writes, one after the other. */
  function WriteAll(cs: seq<Option<InputChannel>>): (items: seq<ParcelItem>)
  {
    if cs == [] then [] else EnvelopeOf(cs[0]) + WriteAll(cs[1..])
  }

  /** Reads `n` envelopes in a row from `pos`: `None` for no wrapper, `Some(c)` for a
      wrapper around endpoint `c`. */
  function ReadAll(data: seq<ParcelItem>, pos: nat, n: nat): (rs: seq<Option<Option<InputChannel>>>)
    decreases n
  {
    if n == 0 then []
    else
      match ReadEnvelope(data, pos)
      case Absent(next) => [None] + ReadAll(data, next, n - 1)
      case Present(c, next) => [Some(c)] + ReadAll(data, next, n - 1)
  }

  /** What reading back a sequence of written wrappers should give: a null for each
      null and a wrapper around the same endpoint for each wrapper. */
  function ReadBackOf(cs: seq<Option<InputChannel>>): seq<Option<Option<InputChannel>>>
  {
    if cs == [] then [] else [if cs[0].None? then None else Some(cs[0])] + ReadBackOf(cs[1..])
  }

  /** Several wrappers written into one parcel, whatever comes before and after them,
      are read back in order, each one initialised or not as it was written. */
  lemma {:induction false} ReadAllWriteAll(prefix: seq<ParcelItem>, cs: seq<Option<InputChannel>>, suffix: seq<ParcelItem>)
    ensures ReadAll(prefix + WriteAll(cs) + suffix, |prefix|, |cs|) == ReadBackOf(cs)
    decreases |cs|
  {
    if cs != [] {
      var head, tail := EnvelopeOf(cs[0]), WriteAll(cs[1..]);
      var prefix' := prefix + head;
      var data := prefix + WriteAll(cs) + suffix;
      assert data == prefix + head + (tail + suffix);
      assert data == prefix' + tail + suffix;
      EnvelopeRoundTrip(prefix, cs[0], tail + suffix);
      ReadAllWriteAll(prefix', cs[1..], suffix);
      assert ReadEnvelope(data, |prefix|).next == |prefix'|;
      assert ReadAll(data, |prefix|, |cs|)
        == [if cs[0].None? then None else Some(cs[0])] + ReadAll(data, |prefix'|, |cs| - 1);
    }
  }

  /** `nativeReadFromParcel`: no parcel, or a zero tag, gives null and allocates
      nothing; any other tag gives a fresh wrapper, with an empty callback slot, around
      whatever endpoint the library reads next, even a null one. */
  method NativeReadFromParcel(heap: NativeHeap, parcel: Parcel?) returns (w: NativeInputChannel?)
    modifies heap, parcel
    ensures parcel == null ==> w == null
    ensures parcel != null ==> parcel.data == old(parcel.data)
    ensures parcel != null ==>
      var r := ReadEnvelope(old(parcel.data), old(parcel.pos));
      && parcel.pos == r.next
      && (w == null <==> r.Absent?)
      && (w != null ==> w.channel == r.channel)
    ensures w == null ==> heap.live == old(heap.live)
    ensures w != null ==>
      && fresh(w) && w.disposeCallback.None? && w.Valid() && w.invocations == []
      && heap.live == old(heap.live) + {w}
  {
    if parcel != null {
      var isInitialized := parcel.ReadInt32();
      if isInitialized != 0 {
        var c := parcel.ReadChannel();
        w := CreateInputChannel(heap, c);
        return;
      }
    }
    w := null;
  }

  /** `nativeWriteToParcel`: appends the tag 0 alone for a null wrapper and the tag 1
      with the endpoint's encoding otherwise; without a parcel it writes nothing. The
      endpoint of a non-null wrapper is dereferenced unconditionally, so it must be
      there. */
  method NativeWriteToParcel(parcel: Parcel?, w: NativeInputChannel?)
    requires w != null ==> w.channel.Some?
    modifies parcel
    ensures parcel != null ==> parcel.pos == old(parcel.pos)
    ensures parcel != null ==> parcel.data == old(parcel.data) + EnvelopeOf(if w == null then None else w.channel)
  {
    if parcel == null {
      return;
    }
    if w == null {
      parcel.WriteInt32(0);
      return;
    }
    parcel.WriteInt32(1);
    parcel.WriteChannel(w.channel.value);
  }

  /** `nativeGetName`: null for a null wrapper, the endpoint's name otherwise. */
  function NativeGetName(w: NativeInputChannel?): (name: Option<string>)
    requires w != null ==> w.channel.Some?
    ensures name.None? <==> w == null
    ensures w != null ==> name.value == w.channel.value.name
  {
    if w == null then None else Some(w.channel.value.name)
  }

  /** `nativeGetToken`: null for a null wrapper, the endpoint's connection token
      otherwise. */
  function NativeGetToken(w: NativeInputChannel?): (token: Option<ConnectionToken>)
    requires w != null ==> w.channel.Some?
    ensures token.None? <==> w == null
    ensures w != null ==> token.value == w.channel.value.token
  {
    if w != null then Some(w.channel.value.token) else None
  }

  /** What `nativeDup` does, given the source (`None` for a null wrapper, otherwise
      the wrapper's endpoint) and what the library's `dup` returned: the exception it
      raises, if any, and the endpoint it wraps in a new wrapper, if it allocates one. */
  datatype DupReply = DupReply(error: Option<JniError>, wrapped: Option<Option<InputChannel>>)

  /** `nativeDup` as written: when the library's `dup` fails it raises, and still
      allocates a wrapper, around a null endpoint. */
  function DupReplyAsWritten(source: Option<Option<InputChannel>>, dupped: Option<InputChannel>): (r: DupReply)
    ensures source.None? ==> r == DupReply(Some(NoNativeChannel), None)
    ensures source == Some(None) ==> r == DupReply(Some(NoInputChannel), None)
    ensures source.Some? && source.value.Some? ==>
      && r.wrapped == Some(dupped)
      && (r.error.Some? <==> dupped.None?)
      && (dupped.None? ==> r.error == Some(DupFailed(source.value.value.name)))
  {
    match source
    case None => DupReply(Some(NoNativeChannel), None)
    case Some(None) => DupReply(Some(NoInputChannel), None)
    case Some(Some(c)) =>
      var error := if dupped.None? then Some(DupFailed(c.name)) else None;
      DupReply(error, Some(dupped))
  }

  /** `nativeDup` as evidently intended: every error path returns 0 and allocates
      nothing, and every wrapper it allocates holds the duplicate endpoint. */
  function DupReplyIntended(source: Option<Option<InputChannel>>, dupped: Option<InputChannel>): (r: DupReply)
    ensures r.error.Some? <==> r.wrapped.None?
    ensures r.wrapped.Some? ==> r.wrapped.value.Some? && r.wrapped.value == dupped
    ensures r.wrapped.Some? <==> source.Some? && source.value.Some? && dupped.Some?
  {
    match source
    case None => DupReply(Some(NoNativeChannel), None)
    case Some(None) => DupReply(Some(NoInputChannel), None)
    case Some(Some(c)) =>
      if dupped.None? then DupReply(Some(DupFailed(c.name)), None)
      else DupReply(None, Some(dupped))
  }

  /** The source as written raises and allocates at once: duplicating a wrapper whose
      endpoint the library cannot duplicate. */
  lemma DupFailureStillAllocates(c: InputChannel)
    ensures DupReplyAsWritten(Some(Some(c)), None) == DupReply(Some(DupFailed(c.name)), Some(None))
    ensures DupReplyIntended(Some(Some(c)), None) == DupReply(Some(DupFailed(c.name)), None)
  {
  }

  /** The corrected reply raises the same exceptions as the code as written and differs
      from it only where the library's `dup` fails on an existing endpoint. */
  lemma DupRepliesDifferOnlyOnDupFailure(source: Option<Option<InputChannel>>, dupped: Option<InputChannel>)
    ensures DupReplyIntended(source, dupped).error == DupReplyAsWritten(source, dupped).error
    ensures DupReplyIntended(source, dupped) != DupReplyAsWritten(source, dupped)
      <==> source.Some? && source.value.Some? && dupped.None?
  {
  }

  /** `nativeDup` as written; `dupped` is what the library's `dup` returned. The source
      wrapper is left as it was and any new wrapper is a different object. */
  method NativeDup(heap: NativeHeap, w: NativeInputChannel?, dupped: Option<InputChannel>)
    returns (r: NativeInputChannel?, error: Option<JniError>)
    modifies heap
    ensures var reply := DupReplyAsWritten(if w == null then None else Some(w.channel), dupped);
      && error == reply.error
      && (r == null <==> reply.wrapped.None?)
      && (r != null ==> r.channel == reply.wrapped.value)
    ensures r == null ==> heap.live == old(heap.live)
    ensures r != null ==>
      && fresh(r) && r != w && r.disposeCallback.None? && r.Valid() && r.invocations == []
      && heap.live == old(heap.live) + {r}
  {
    if w == null {
      return null, Some(NoNativeChannel);
    }
    var inputChannel := w.channel;
    if inputChannel.None? {
      return null, Some(NoInputChannel);
    }
    error := None;
    if dupped.None? {
      error := Some(DupFailed(inputChannel.value.name));
    }
    r := CreateInputChannel(heap, dupped);
  }

  /** `nativeDup` with the missing early return after a failed `dup`: an exception
      never comes with a new wrapper, and a new wrapper always holds an endpoint. */
  method NativeDupChecked(heap: NativeHeap, w: NativeInputChannel?, dupped: Option<InputChannel>)
    returns (r: NativeInputChannel?, error: Option<JniError>)
    modifies heap
    ensures var reply := DupReplyIntended(if w == null then None else Some(w.channel), dupped);
      && error == reply.error
      && (r == null <==> reply.wrapped.None?)
      && (r != null ==> r.channel == reply.wrapped.value)
    ensures error.Some? <==> r == null
    ensures r == null ==> heap.live == old(heap.live)
    ensures r != null ==>
      && fresh(r) && r != w && r.channel.Some? && r.channel == dupped
      && r.disposeCallback.None? && r.Valid() && r.invocations == []
      && heap.live == old(heap.live) + {r}
  {
    if w == null {
      return null, Some(NoNativeChannel);
    }
    var inputChannel := w.channel;
    if inputChannel.None? {
      return null, Some(NoInputChannel);
    }
    if dupped.None? {
      return null, Some(DupFailed(inputChannel.value.name));
    }
    r := CreateInputChannel(heap, dupped);
    error := None;
  }
}

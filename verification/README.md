# Compatibility-change overrides and native input-channel wrappers

This project models two sequential state machines from the Android framework and
proves properties of them in Dafny.

**Compatibility changes** (`compat_change.dfy`, module `Compat`). A `CompatChange`
carries fixed flags: `disabled`, `loggingOnly` and `enableSinceTargetSdk` (-1 means
no restriction). It also holds two lazily allocated maps from package name to
boolean: regular overrides and deferred overrides. Deferred overrides take effect
once a package is installed. The change holds at most one `ChangeListener`, and
each `onCompatChange` call is recorded in a ghost log, `notifications`. The object
invariant `Valid()` says that a logging-only change holds no override of either
kind. Every mutator keeps that invariant.

**Native input-channel wrappers** (`input_channel.dfy`, module `InputChannelJni`).
A `NativeInputChannel` wraps one input-channel endpoint, which may be null. It has
one dispose-callback slot with its data pointer. Ghost state counts the callback
registrations and records every callback invocation. The JNI entry points create
pairs of wrappers, duplicate a wrapper, dispose a wrapper, free it, read its name
and token, and marshal it to a parcel inside an `initialized` tag envelope. A Java
`long` that holds a pointer is modelled as `NativeInputChannel?`. A ghost
`NativeHeap` tracks which wrappers are allocated (`new`) and not yet freed
(`delete`).

The endpoint library and the parcel are not part of this model. The file
`transport.dfy` (module `Transport`) gives stand-ins for them:
- an endpoint is a value holding a name, a connection token and a descriptor;
- a parcel is a sequence of typed items with a read cursor;
- an endpoint's encoding is a three-item record, proved to round-trip (name, token and, in the stand-in only, the descriptor value).

Results the library computes are parameters of the JNI methods: the status and
endpoints of an opened pair, and the result of `dup`.

## Model

| member | source | states |
|---|---|---|
| `Compat.CompatChange.OfId` | services/core/java/com/android/server/compat/CompatChange.java:66-68 | a change built from an id alone is enabled, not logging-only, has no SDK restriction, no listener and no override maps |
| `Compat.CompatChange.constructor` | services/core/java/com/android/server/compat/CompatChange.java:79-84 | the flags are the given ones; there is no listener, no map and no notification, and the invariant holds |
| `Compat.CompatChange.RegisterListener` | services/core/java/com/android/server/compat/CompatChange.java:95-101 | succeeds only when no listener is set; a second registration fails with the already-registered error and keeps the first listener |
| `Compat.CompatChange.NotifyListener` | services/core/java/com/android/server/compat/CompatChange.java:284-288 | appends exactly one call for the registered listener, or nothing when there is none |
| `Compat.CompatChange.AddPackageOverride` | services/core/java/com/android/server/compat/CompatChange.java:113-123 | on a logging-only change it fails and changes neither the map nor the notification log; otherwise the regular map becomes `old[p := e]`, `hasOverride(p)` holds, `isEnabled` is `e` for every app named `p` at any target SDK, and the listener is notified once |
| `Compat.CompatChange.AddPackageDeferredOverride` | services/core/java/com/android/server/compat/CompatChange.java:134-143 | fails on a logging-only change and leaves the map unchanged; otherwise the deferred map becomes `old[p := e]` and `willBeEnabled(p) == e`; it never notifies |
| `Compat.CompatChange.RecheckOverride` | services/core/java/com/android/server/compat/CompatChange.java:157-173 | returns true exactly when a deferred override is allowed, or a regular override is disallowed. Promotion moves the deferred value into the regular map, notifies once, and makes `isEnabled` equal the earlier `willBeEnabled`. Demotion moves the regular value into the deferred map and notifies once. Otherwise nothing changes |
| `Compat.CompatChange.RemovePackageOverride` | services/core/java/com/android/server/compat/CompatChange.java:182-191 | removes `p` from both maps and keeps every other entry; notifies if and only if a regular override for `p` existed; afterwards `willBeEnabled(p)` is the default |
| `Compat.CompatChange.IsEnabled` | services/core/java/com/android/server/compat/CompatChange.java:200-214 | precedence: a null app gets the default; a regular override decides; otherwise the result is on iff the change is not disabled and either it has no SDK restriction or the app's target SDK reaches the restriction |
| `Compat.CompatChange.WillBeEnabled` | services/core/java/com/android/server/compat/CompatChange.java:222-227 | the deferred value for `p` when one exists, else the default; regular overrides play no part |
| `Compat.CompatChange.DefaultValue` | services/core/java/com/android/server/compat/CompatChange.java:234-236 | off exactly for a default-disabled change |
| `Compat.CompatChange.HasOverride` | services/core/java/com/android/server/compat/CompatChange.java:243-245 | true iff `p` is a key of the regular overrides; an unallocated map has none |
| `Compat.CompatChange.HasDeferredOverride` | services/core/java/com/android/server/compat/CompatChange.java:252-254 | true iff `p` is a key of the deferred overrides; an unallocated map has none |
| `Compat.LoggingOnlyFollowsDefaults` | services/core/java/com/android/server/compat/CompatChange.java:113-117 | under the invariant, a logging-only change has no override of either kind, so its decisions are the flag-determined defaults |
| `Compat.TargetSdkMonotone` | services/core/java/com/android/server/compat/CompatChange.java:210-212 | with no override, raising the target SDK never turns the change off |
| `Compat.DisabledNeedsOverride` | services/core/java/com/android/server/compat/CompatChange.java:204-209 | a disabled change is on for an app exactly when a regular override sets it to true |
| `Compat.NotificationsFor` | services/core/java/com/android/server/compat/CompatChange.java:284-288 | one listener call when a listener is registered, none otherwise |
| `InputChannelJni.NativeInputChannel.constructor` | core/jni/android_view_InputChannel.cpp:62-64 | a new wrapper holds the given endpoint and an empty callback slot |
| `InputChannelJni.NativeInputChannel.SetDisposeCallback` | core/jni/android_view_InputChannel.cpp:69-72 | overwrites the callback and data without error, and keeps the invariant that each registration fires at most once |
| `InputChannelJni.NativeInputChannel.InvokeAndRemoveDisposeCallback` | core/jni/android_view_InputChannel.cpp:74-80 | a stored callback runs exactly once, with the endpoint and the data, then both slots are null; with an empty slot nothing runs |
| `InputChannelJni.GetInputChannel` | core/jni/android_view_InputChannel.cpp:90-94 | null for a missing wrapper, the wrapped endpoint otherwise |
| `InputChannelJni.SetDisposeCallback` | core/jni/android_view_InputChannel.cpp:96-105 | a missing wrapper registers nothing; otherwise the slot holds the new callback and data, a non-null callback counts as one more registration, and no callback runs |
| `InputChannelJni.CreateInputChannel` | core/jni/android_view_InputChannel.cpp:107-113 | allocates one fresh wrapper around the endpoint, with an empty slot |
| `InputChannelJni.NativeOpenInputChannelPair` | core/jni/android_view_InputChannel.cpp:115-149 | a failed open raises, returns null and allocates no wrapper; otherwise the result is a 2-slot array with the server wrapper at 0 and the client wrapper at 1, both fresh and distinct with empty slots and no callback run |
| `InputChannelJni.NativeDestroy` | core/jni/android_view_InputChannel.cpp:151-157 | frees only a non-null wrapper, and never touches its callback |
| `InputChannelJni.NativeDispose` | core/jni/android_view_InputChannel.cpp:163-170 | a null wrapper is a no-op; otherwise a stored callback runs once on the endpoint and its data, and both callback and data end null; an empty slot keeps its data and runs nothing, so a second dispose runs nothing |
| `InputChannelJni.EnvelopeOf` | core/jni/android_view_InputChannel.cpp:196-201 | a null wrapper writes exactly `0`; any other wrapper writes `1` followed by the endpoint's encoding |
| `InputChannelJni.ReadEnvelope` | core/jni/android_view_InputChannel.cpp:174-184 | no wrapper exactly when the tag is missing or zero; any non-zero tag is followed by an endpoint read, whose encoding is consumed when present |
| `InputChannelJni.EnvelopeRoundTrip` | core/jni/android_view_InputChannel.cpp:172-202 | writing a wrapper or a null and reading it back at the same place preserves "initialised or not" and the endpoint's name and token (the descriptor too, in the stand-in only), and the cursor lands just after what was written |
| `InputChannelJni.ReadAllWriteAll` | core/jni/android_view_InputChannel.cpp:172-202 | a sequence of wrappers written into one parcel, with anything before and after, is read back in order; each null stays null and each wrapper comes back around an endpoint with the same name and token (and, in the stand-in, the same descriptor value) |
| `InputChannelJni.NativeReadFromParcel` | core/jni/android_view_InputChannel.cpp:172-184 | a missing parcel or a zero tag gives null and allocates nothing; a non-zero tag gives a fresh wrapper with an empty slot around what the library read, and the cursor advances as `ReadEnvelope` says |
| `InputChannelJni.NativeWriteToParcel` | core/jni/android_view_InputChannel.cpp:186-202 | a missing parcel is left alone; otherwise the parcel gains exactly `EnvelopeOf` of the wrapper's endpoint, or of null |
| `InputChannelJni.NativeGetName` | core/jni/android_view_InputChannel.cpp:204-213 | null exactly for a null wrapper, the endpoint's name otherwise |
| `InputChannelJni.NativeGetToken` | core/jni/android_view_InputChannel.cpp:238-246 | null exactly for a null wrapper, the endpoint's connection token otherwise |
| `InputChannelJni.DupReplyAsWritten` | core/jni/android_view_InputChannel.cpp:215-236 | a null wrapper, or a wrapper without an endpoint, raises and allocates nothing; when `dup` fails on an existing endpoint it raises and still wraps a null endpoint |
| `InputChannelJni.DupReplyIntended` | core/jni/android_view_InputChannel.cpp:215-236 | an exception is raised exactly when no wrapper is allocated, and every wrapper allocated holds the duplicate endpoint |
| `InputChannelJni.DupFailureStillAllocates` | core/jni/android_view_InputChannel.cpp:229-235 | a failed `dup` both raises and allocates in the code as written, and only raises in the corrected version |
| `InputChannelJni.DupRepliesDifferOnlyOnDupFailure` | core/jni/android_view_InputChannel.cpp:219-235 | both versions raise the same exceptions, and they differ only when `dup` fails on an existing endpoint |
| `InputChannelJni.NativeDup` | core/jni/android_view_InputChannel.cpp:215-236 | implements `DupReplyAsWritten`; the source wrapper is unchanged and any new wrapper is fresh and distinct from it |
| `InputChannelJni.NativeDupChecked` | core/jni/android_view_InputChannel.cpp:215-236 | implements `DupReplyIntended`: an error never comes with a new wrapper, and a new wrapper holds the duplicate endpoint |
| `Transport.EncodeChannel` | core/jni/android_view_InputChannel.cpp:201 | stand-in for the endpoint's own parcel encoding: a fixed number of items |
| `Transport.DecodeChannel` | core/jni/android_view_InputChannel.cpp:178 | stand-in for the endpoint read: either null with the cursor unmoved, or exactly the items that encode the returned endpoint |
| `Transport.DecodeEncode` | core/jni/android_view_InputChannel.cpp:178-201 | an encoded endpoint decodes, wherever it sits in the data, to one with the same name and token; the stand-in also returns the same descriptor value, where a real read gets a duplicate |
| `Transport.ReadInt32At` | core/jni/android_view_InputChannel.cpp:176 | an integer item is returned and consumed; past the end of the data, the result is 0 and the cursor does not move |
| `Transport.Parcel.WriteInt32` | core/jni/android_view_InputChannel.cpp:197-200 | appends one integer item |
| `Transport.Parcel.ReadInt32` | core/jni/android_view_InputChannel.cpp:176 | reads as `ReadInt32At` at the cursor |
| `Transport.Parcel.WriteChannel` | core/jni/android_view_InputChannel.cpp:201 | appends the endpoint's encoding |
| `Transport.Parcel.ReadChannel` | core/jni/android_view_InputChannel.cpp:178 | reads as `DecodeChannel` at the cursor |

## Findings

| source | as written | input that shows it | evidently intended | confidence | as-written member | corrected member |
|---|---|---|---|---|---|---|
| core/jni/android_view_InputChannel.cpp:229-235 | when `dup()` returns null, the code raises a RuntimeException but does not return; it goes on to allocate a `NativeInputChannel` around the null endpoint and returns its pointer | a wrapper whose endpoint the library cannot duplicate, for example when the descriptor table is exhausted | return 0 after raising, as the two checks above it do (lines 219-228), so that an error path allocates no wrapper; the returned pointer is dropped by the raised exception, so the wrapper leaks | medium; not executed | `InputChannelJni.DupFailureStillAllocates` | `InputChannelJni.DupReplyIntended` |

The as-written behaviour is `InputChannelJni.DupReplyAsWritten`, which `InputChannelJni.NativeDup` implements. The corrected behaviour is `InputChannelJni.DupReplyIntended`, which `InputChannelJni.NativeDupChecked` implements.

## Left out

- The `InputChannel` endpoint library is not part of this model. That covers opening a socket pair, duplicating a descriptor, the real parcel encoding of a descriptor, name and token, and the sharing of name and token between the two ends of a pair. Its results enter the JNI methods as parameters, and `Transport` gives a stand-in encoding with a proved round trip.
- Android's `Parcel` is replaced by the stand-in `Transport.Parcel`: a sequence of typed items rather than bytes; writes append, and reads advance a cursor.
- `Transport.DecodeChannel`: the stand-in read returns the very descriptor value that was written. A real transfer installs a fresh duplicate descriptor, referring to the same socket, in the reading process. So the round trips (`Transport.DecodeEncode`, `InputChannelJni.EnvelopeRoundTrip`, `InputChannelJni.ReadAllWriteAll`) promise more about the descriptor than the system does; only the name, the token and the `initialized` tag are meant.
- `Transport.ReadInt32At`: reading an integer where another kind of item sits also yields 0 with the cursor unmoved. This stand-in replaces the byte-level reinterpretation a real parcel would do.
- JNI mechanics are out of scope: field lookups, `NewLongArray` returning null, `ExceptionCheck`, `NewStringUTF`, `javaObjectForIBinder`, pointer casts, and method registration (`register_android_view_InputChannel`). A raised exception is the returned `JniError`; log output is not modelled.
- The finalizer pointer (`getNativeFinalizer`) is out of scope, and so are races between an explicit dispose and finalisation. These are runtime and concurrency concerns.
- Re-entrancy is not modelled: the model does not cover a dispose callback that calls back into the wrapper. The callback is an external call, recorded in the ghost invocation log.
- `mDisposeData` is left uninitialised by the C++ constructor, and the model starts it as null. It is only read after a `setDisposeCallback`, which sets it.
- Use-after-free is not modelled. Only `InputChannelJni.NativeDestroy` requires its wrapper to be live; the other entry points take the pointer as valid, as the Java side guarantees.
- `InputChannelJni.NativeWriteToParcel`, `InputChannelJni.NativeGetName`, `InputChannelJni.NativeGetToken`: these require a non-null wrapper to hold an endpoint, because the source dereferences that endpoint unchecked.
- `CompatChange.toString` is out of scope. Its output depends on the map's formatting and iteration order. The name and `overridable` fields, which only it reads here, are left out with it; so are the change id's description and other superclass fields no member reads.
- `Compat.CompatChange.constructor`: its `enableSinceTargetSdk` is the value the superclass's `getEnableSinceTargetSdk()` returns. The full constructor also passes `enableAfterTargetSdk` to the superclass, which is not part of this model; how the superclass folds `enableAfterTargetSdk` into that value is not modelled.
- The constructor taking an XSD-generated `Change` is configuration plumbing, and so is the `CTS_SYSTEM_API_CHANGEID` constant. Neither is modelled.
- Thread safety is the caller's duty, as the class documents. Listener callbacks are recorded in the ghost notification log and are assumed not to call back into the change.

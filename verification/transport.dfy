/** Stand-ins for the two collaborators the input-channel glue calls without owning
    them: the InputChannel endpoint (a name, a connection token and a socket
    descriptor, with its own parcel encoding) and the Parcel it is written to and read
    from. A parcel is modelled as a sequence of typed items with a read cursor rather
    than as bytes; the encoding of an endpoint is a fixed three-item record. Only the
    property the glue relies on is stated of them: what one side writes, the other
    reads back. */
module Transport {
  import opened Wrappers

  /** The binder token shared by the two ends of a channel pair; compared by identity. */
  datatype ConnectionToken = ConnectionToken(id: nat)

  /** One endpoint of a socket pair. */
  datatype InputChannel = InputChannel(name: string, token: ConnectionToken, fd: int)

  /** One item of a parcel. */
  datatype ParcelItem =
    | Int32(v: int)
    | CString(s: string)
    | FileDescriptor(fd: int)
    | StrongBinder(token: ConnectionToken)

  /** The number of items an endpoint occupies in a parcel. */
  const CHANNEL_ITEMS: nat := 3

  /** How an endpoint writes itself into a parcel: name, descriptor, token. */
  function EncodeChannel(c: InputChannel): (items: seq<ParcelItem>)
    ensures |items| == CHANNEL_ITEMS
  {
    [CString(c.name), FileDescriptor(c.fd), StrongBinder(c.token)]
  }

  /** Reads an endpoint at `pos`. Data that does not hold an endpoint there yields
      null and leaves the cursor where it was; a successful read consumes exactly the
      items that encode the endpoint it returns. */
  function DecodeChannel(data: seq<ParcelItem>, pos: nat): (r: (Option<InputChannel>, nat))
    ensures r.0.None? ==> r.1 == pos
    ensures r.0.Some? ==> r.1 == pos + CHANNEL_ITEMS <= |data| && data[pos..r.1] == EncodeChannel(r.0.value)
  {
    if pos + CHANNEL_ITEMS <= |data| && data[pos].CString? && data[pos + 1].FileDescriptor?
       && data[pos + 2].StrongBinder?
    then
      (Some(InputChannel(data[pos].s, data[pos + 2].token, data[pos + 1].fd)), pos + CHANNEL_ITEMS)
    else
      (None, pos)
  }

  /** An endpoint written anywhere in a parcel is read back whole from where it starts,
      whatever precedes or follows it. */
  lemma DecodeEncode(prefix: seq<ParcelItem>, c: InputChannel, suffix: seq<ParcelItem>)
    ensures DecodeChannel(prefix + EncodeChannel(c) + suffix, |prefix|) == (Some(c), |prefix| + CHANNEL_ITEMS)
  {
  }

  /** `readInt32` at `pos`: the value of an integer item, which it consumes; 0 with the
      cursor unmoved past the end of the data or on an item of another kind. */
  function ReadInt32At(data: seq<ParcelItem>, pos: nat): (r: (int, nat))
    ensures pos < |data| && data[pos].Int32? ==> r == (data[pos].v, pos + 1)
    ensures !(pos < |data| && data[pos].Int32?) ==> r == (0, pos)
  {
    if pos < |data| && data[pos].Int32? then (data[pos].v, pos + 1) else (0, pos)
  }

  /** A parcel: the items written so far and the cursor reads start from. Writes append. */
  class Parcel {
    var data: seq<ParcelItem>
    var pos: nat

    constructor (data: seq<ParcelItem>)
      ensures this.data == data && pos == 0
    {
      this.data := data;
      pos := 0;
    }

    method WriteInt32(v: int)
      modifies this`data
      ensures data == old(data) + [Int32(v)]
    {
      data := data + [Int32(v)];
    }

    method ReadInt32() returns (v: int)
      modifies this`pos
      ensures (v, pos) == ReadInt32At(data, old(pos))
    {
      var r := ReadInt32At(data, pos);
      v, pos := r.0, r.1;
    }

    /** `InputChannel::write`: appends the endpoint's encoding. */
    method WriteChannel(c: InputChannel)
      modifies this`data
      ensures data == old(data) + EncodeChannel(c)
    {
      data := data + EncodeChannel(c);
    }

    /** `InputChannel::read`: the endpoint at the cursor, or null. */
    method ReadChannel() returns (c: Option<InputChannel>)
      modifies this`pos
      ensures (c, pos) == DecodeChannel(data, old(pos))
    {
      var r := DecodeChannel(data, pos);
      c, pos := r.0, r.1;
    }
  }
}

// The RTP sender with SDP announcement (src/video_rxtx/h264_sdp.cpp).
// The first compressed frame fixes the codec announced over
// SDP; uncompressed frames only trigger a single request to switch the
// sender's compression on. What the sender makes happen outside itself
// (messages, transmissions, RTCP, exit requests) is recorded as events.

module H264Sdp {
  import opened Wrappers
  import opened Video

  /** A frame handed to `send_frame`: its identity and codec. */
  datatype TxFrame = TxFrame(id: nat, colorSpec: Codec)

  /** The effects of the sender, in the order they happen. */
  datatype Event =
    | CompressChange                    // CHANGE_COMPRESS message to "sender.compress"
    | AddressChange(address: string)    // SENDER_MSG_CHANGE_RECEIVER message
    | SendH264(frame: nat, device: nat) // tx_send_h264 on a network device
    | SendJpeg(frame: nat, device: nat) // tx_send_jpeg on a network device
    | Rtcp                              // rtp_update, rtp_send_ctrl and rtp_recv_r on the first device
    | ExitUv(status: int)               // exit_uv
    | Abort                             // abort()

  predicate IsTransmission(e: Event)
  {
    e.SendH264? || e.SendJpeg?
  }

  /** Whether some event of the list transmits a frame. */
  predicate AnyTransmission(es: seq<Event>)
  {
    exists i :: 0 <= i < |es| && IsTransmission(es[i])
  }

  /**
   * What `send_frame` depends on besides the latch: the number of
   * connections, whether a receiver thread runs (which then handles RTCP),
   * `is_codec_opaque`, and the return code of the SDP library's
   * `sdp_add_video` for a codec.
   */
  datatype Env = Env(connections: nat, receiver: bool, isOpaque: Codec -> bool, addVideoRc: Codec -> int)

  /** The codec-latch state: `m_sent_compress_change` and `m_sdp_configured_codec`. */
  datatype Latch = Latch(sentCompressChange: bool, configuredCodec: Codec)

  const INITIAL_LATCH: Latch := Latch(false, CodecNone)

  /** The constructor's exception for a return of `sdp_set_options`: none for 0, then 0 for 1 and 1 for anything else. */
  function OptionsFailure(ret: int): (r: Option<int>)
    ensures r.None? <==> ret == 0
    ensures r == Some(0) <==> ret == 1
    ensures r.Some? ==> r.value == 0 || r.value == 1
  {
    if ret == 0 then None else if ret == 1 then Some(0) else Some(1)
  }

  /** The outcome of the member `sdp_add_video` for the library's return code. */
  datatype AddVideo = Added | Unsupported | Aborted

  /** Return code 0 announces the codec, -2 throws (an unsupported codec), anything else aborts. */
  function AddVideoOutcome(rc: int): (r: AddVideo)
    ensures r == Added <==> rc == 0
    ensures r == Unsupported <==> rc == -2
    ensures r == Aborted <==> rc != 0 && rc != -2
  {
    if rc == -2 then Unsupported else if rc != 0 then Aborted else Added
  }

  /**
   * The sends for one accepted frame: on a single connection the codec
   * picks H.264 or JPEG; with any other count every device gets H.264.
   */
  function Transmissions(frame: nat, codec: Codec, n: nat): (r: seq<Event>)
    ensures |r| == n
    ensures forall i :: 0 <= i < |r| ==> IsTransmission(r[i]) && r[i].frame == frame && r[i].device == i
    ensures forall i :: 0 <= i < |r| ==> (r[i].SendJpeg? <==> n == 1 && codec != H264)
  {
    if n == 1 then [if codec == H264 then SendH264(frame, 0) else SendJpeg(frame, 0)]
    else seq(n, i requires 0 <= i < n => SendH264(frame, i))
  }

  /** The RTCP exchange `send_frame` does itself when no receiver thread does it. */
  function RtcpEvents(env: Env): seq<Event>
  {
    if env.receiver then [] else [Rtcp]
  }

  /**
   * `send_frame`: the new latch and the events. An uncompressed frame is
   * never sent and requests the compression change once; the first
   * compressed frame announces its codec; a frame whose codec differs from
   * the announced one is dropped.
   */
  function FrameEffect(st: Latch, f: TxFrame, env: Env): (r: (Latch, seq<Event>))
    ensures !env.isOpaque(f.colorSpec) ==>
      r.0 == st.(sentCompressChange := true) &&
      r.1 == (if st.sentCompressChange then [] else [CompressChange])
    ensures env.isOpaque(f.colorSpec) ==> r.0.sentCompressChange == st.sentCompressChange && CompressChange !in r.1
    ensures st.configuredCodec != CodecNone ==> r.0.configuredCodec == st.configuredCodec
    ensures st.configuredCodec == CodecNone && r.0.configuredCodec != CodecNone ==>
      env.isOpaque(f.colorSpec) && r.0.configuredCodec == f.colorSpec
    ensures forall e :: e in r.1 && IsTransmission(e) ==>
      e.frame == f.id && env.isOpaque(f.colorSpec) && f.colorSpec == r.0.configuredCodec
    ensures AnyTransmission(r.1) <==>
      env.isOpaque(f.colorSpec) && env.connections > 0 &&
      (if st.configuredCodec == CodecNone then env.addVideoRc(f.colorSpec) == 0
       else st.configuredCodec == f.colorSpec)
  {
    if !env.isOpaque(f.colorSpec) then
      if st.sentCompressChange then (st.(sentCompressChange := true), [])
      else (st.(sentCompressChange := true), [CompressChange])
    else if st.configuredCodec == CodecNone && AddVideoOutcome(env.addVideoRc(f.colorSpec)) == Unsupported then
      (st, [ExitUv(1)])
    else if st.configuredCodec == CodecNone && AddVideoOutcome(env.addVideoRc(f.colorSpec)) == Aborted then
      (st, [Abort])
    else
      var latched := if st.configuredCodec == CodecNone then st.(configuredCodec := f.colorSpec) else st;
      if latched.configuredCodec != f.colorSpec then (latched, [])
      else
        var sends := Transmissions(f.id, latched.configuredCodec, env.connections);
        var es := sends + RtcpEvents(env);
        assert env.connections > 0 ==> IsTransmission(es[0]);
        assert forall i :: |sends| <= i < |es| ==> es[i] == Rtcp;
        (latched, es)
  }

  // ---------------------------------------------------------------------
  // Runs of frames
  // ---------------------------------------------------------------------

  /** The latch and events after `send_frame` on each frame in turn. */
  function RunFrames(st: Latch, frames: seq<TxFrame>, env: Env): (r: (Latch, seq<Event>))
    decreases |frames|
  {
    if frames == [] then (st, [])
    else
      var (st1, es1) := FrameEffect(st, frames[0], env);
      var (st2, es2) := RunFrames(st1, frames[1..], env);
      (st2, es1 + es2)
  }

  /** The number of compression-change requests among the events. */
  function CompressChanges(es: seq<Event>): nat
  {
    if es == [] then 0 else (if es[0] == CompressChange then 1 else 0) + CompressChanges(es[1..])
  }

  lemma {:induction false} CompressChangesAppend(a: seq<Event>, b: seq<Event>)
    ensures CompressChanges(a + b) == CompressChanges(a) + CompressChanges(b)
  {
    if a == [] {
      assert a + b == b;
    } else {
      assert (a + b)[0] == a[0];
      assert (a + b)[1..] == a[1..] + b;
      CompressChangesAppend(a[1..], b);
    }
  }

  /** Over any run, the compression change is requested at most once, and never again once requested. */
  lemma {:induction false} CompressChangeAtMostOnce(st: Latch, frames: seq<TxFrame>, env: Env)
    ensures CompressChanges(RunFrames(st, frames, env).1) <= if st.sentCompressChange then 0 else 1
    ensures st.sentCompressChange ==> RunFrames(st, frames, env).0.sentCompressChange
    decreases |frames|
  {
    if frames != [] {
      var step := FrameEffect(st, frames[0], env);
      var st1, es1 := step.0, step.1;
      assert RunFrames(st, frames, env).1 == es1 + RunFrames(st1, frames[1..], env).1;
      CompressChangeAtMostOnce(st1, frames[1..], env);
      CompressChangesAppend(es1, RunFrames(st1, frames[1..], env).1);
      if env.isOpaque(frames[0].colorSpec) {
        CompressChangesNone(es1);
      } else if !st.sentCompressChange {
        assert es1 == [CompressChange] && es1[1..] == [];
      }
    }
  }

  /** A list without a compression-change request counts none. */
  lemma {:induction false} CompressChangesNone(es: seq<Event>)
    requires CompressChange !in es
    ensures CompressChanges(es) == 0
  {
    if es != [] {
      assert es[0] in es;
      assert forall e :: e in es[1..] ==> e in es;
      CompressChangesNone(es[1..]);
    }
  }

  /** Once a codec is announced it stays the announced codec for the rest of any run. */
  lemma {:induction false} LatchedCodecNeverChanges(st: Latch, frames: seq<TxFrame>, env: Env)
    requires st.configuredCodec != CodecNone
    ensures RunFrames(st, frames, env).0.configuredCodec == st.configuredCodec
    decreases |frames|
  {
    if frames != [] {
      LatchedCodecNeverChanges(FrameEffect(st, frames[0], env).0, frames[1..], env);
    }
  }

  /**
   * Over any run, every transmitted frame is a compressed frame of the run
   * whose codec is the codec finally announced: uncompressed frames and
   * frames of another codec are never sent.
   */
  lemma {:induction false} TransmittedFramesMatchLatch(st: Latch, frames: seq<TxFrame>, env: Env)
    requires !env.isOpaque(CodecNone)
    ensures var (last, es) := RunFrames(st, frames, env);
      forall e :: e in es && IsTransmission(e) ==>
        env.isOpaque(last.configuredCodec) &&
        exists k :: 0 <= k < |frames| && frames[k].id == e.frame && frames[k].colorSpec == last.configuredCodec
    decreases |frames|
  {
    if frames != [] {
      var (st1, es1) := FrameEffect(st, frames[0], env);
      var (last, es2) := RunFrames(st1, frames[1..], env);
      TransmittedFramesMatchLatch(st1, frames[1..], env);
      forall e | e in es1 + es2 && IsTransmission(e)
        ensures env.isOpaque(last.configuredCodec)
        ensures exists k :: 0 <= k < |frames| && frames[k].id == e.frame && frames[k].colorSpec == last.configuredCodec
      {
        if e in es1 {
          assert st1.configuredCodec == frames[0].colorSpec != CodecNone;
          LatchedCodecNeverChanges(st1, frames[1..], env);
          assert frames[0].id == e.frame;
        } else {
          var k :| 0 <= k < |frames[1..]| && frames[1..][k].id == e.frame && frames[1..][k].colorSpec == last.configuredCodec;
          assert frames[k + 1] == frames[1..][k];
        }
      }
    }
  }

  // ---------------------------------------------------------------------
  // Address changes
  // ---------------------------------------------------------------------

  /** `change_address_callback`: the saved address afterwards, and the message sent (none for the saved address). */
  function AddressStep(saved: string, address: string): (r: (string, seq<Event>))
    ensures r.0 == address
    ensures r.1 == [] <==> address == saved
    ensures r.1 != [] ==> r.1 == [AddressChange(address)]
  {
    if saved == address then (saved, []) else (address, [AddressChange(address)])
  }

  /** The callback is idempotent: repeating an address sends nothing the second time. */
  lemma RepeatedAddressIsSilent(saved: string, address: string)
    ensures AddressStep(AddressStep(saved, address).0, address) == (address, [])
  {
  }

  // ---------------------------------------------------------------------
  // The sender
  // ---------------------------------------------------------------------

  /** `h264_sdp_video_rxtx`, with the fields the sending logic uses. */
  class SdpSender {
    var savedAddr: string
    var savedTxPort: int
    var sentCompressChange: bool
    var configuredCodec: Codec
    var connections: nat
    var receiver: bool
    var events: seq<Event>

    constructor (requestedReceiver: string, txPort: int, connectionCount: nat, receiverMode: bool)
      ensures savedAddr == requestedReceiver && savedTxPort == txPort
      ensures connections == connectionCount && receiver == receiverMode
      ensures Latch(sentCompressChange, configuredCodec) == INITIAL_LATCH && events == []
    {
      savedAddr := requestedReceiver;
      savedTxPort := txPort;
      sentCompressChange := false;
      configuredCodec := CodecNone;
      connections := connectionCount;
      receiver := receiverMode;
      events := [];
    }

    /** The constructor, which throws when `sdp_set_options` returns non-zero. */
    static method Create(requestedReceiver: string, txPort: int, connectionCount: nat, receiverMode: bool, optionsRet: int)
      returns (s: SdpSender?, thrown: Option<int>)
      ensures thrown == OptionsFailure(optionsRet)
      ensures s == null <==> thrown.Some?
      ensures s != null ==> fresh(s)
      ensures s != null ==> s.savedAddr == requestedReceiver && s.savedTxPort == txPort
      ensures s != null ==> s.connections == connectionCount && s.receiver == receiverMode
      ensures s != null ==> Latch(s.sentCompressChange, s.configuredCodec) == INITIAL_LATCH && s.events == []
    {
      s := new SdpSender(requestedReceiver, txPort, connectionCount, receiverMode);
      if optionsRet != 0 {
        thrown := Some(if optionsRet == 1 then 0 else 1);
        s := null;
      } else {
        thrown := None;
      }
    }

    function CurrentEnv(isOpaque: Codec -> bool, addVideoRc: Codec -> int): Env
      reads this
    {
      Env(connections, receiver, isOpaque, addVideoRc)
    }

    /** `change_address_callback`. */
    method ChangeAddress(address: string)
      modifies this
      ensures savedAddr == AddressStep(old(savedAddr), address).0
      ensures events == old(events) + AddressStep(old(savedAddr), address).1
      ensures savedTxPort == old(savedTxPort) && sentCompressChange == old(sentCompressChange)
      ensures configuredCodec == old(configuredCodec) && connections == old(connections) && receiver == old(receiver)
    {
      if savedAddr == address {
        return;
      }
      savedAddr := address;
      events := events + [AddressChange(address)];
    }

    /** `send_frame`, with `is_codec_opaque` and the SDP library's return codes as parameters. */
    method SendFrame(f: TxFrame, isOpaque: Codec -> bool, addVideoRc: Codec -> int)
      modifies this
      ensures var (st, es) := FrameEffect(old(Latch(sentCompressChange, configuredCodec)), f, old(CurrentEnv(isOpaque, addVideoRc)));
        Latch(sentCompressChange, configuredCodec) == st && events == old(events) + es
      ensures savedAddr == old(savedAddr) && savedTxPort == old(savedTxPort)
      ensures connections == old(connections) && receiver == old(receiver)
    {
      if !isOpaque(f.colorSpec) {
        if sentCompressChange {
          return;
        }
        events := events + [CompressChange];
        sentCompressChange := true;
        return;
      }
      if configuredCodec == CodecNone {
        var rc := addVideoRc(f.colorSpec);
        if rc == -2 {
          events := events + [ExitUv(1)];
          return;
        }
        if rc != 0 {
          events := events + [Abort];
          return;
        }
        configuredCodec := f.colorSpec;
      }
      if configuredCodec != f.colorSpec {
        return;
      }
      var sent := Transmit(f.id);
      if !receiver {
        sent := sent + [Rtcp];
      }
      events := events + sent;
    }

    /**
     * The transmissions of one frame in the announced codec: a single
     * connection takes H.264 or JPEG; several connections each take H.264.
     */
    method Transmit(frame: nat) returns (sent: seq<Event>)
      ensures sent == Transmissions(frame, configuredCodec, connections)
    {
      if connections == 1 {
        if configuredCodec == H264 {
          sent := [SendH264(frame, 0)];
        } else {
          sent := [SendJpeg(frame, 0)];
        }
      } else {
        sent := [];
        var i := 0;
        while i < connections
          invariant i <= connections
          invariant sent == Transmissions(frame, configuredCodec, connections)[..i]
        {
          sent := sent + [SendH264(frame, i)];
          i := i + 1;
        }
      }
    }
  }
}

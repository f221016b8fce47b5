/**
 * The camera list sent to the host by `listCameras`: media devices are
 * filtered to video inputs and each is shaped into a `{label, deviceId}`
 * option, in discovery order.
 */
module Cameras {
  import opened Wrappers

  const VideoInputKind: string := "videoinput"
  /** The text a JavaScript template literal produces for an absent value. */
  const Undefined: string := "undefined"
  const CameraPrefix: string := "Camera "

  /** A MediaDeviceInfo as the browser reports it; label and id may be missing. */
  datatype MediaDevice = MediaDevice(kind: string, labelText: Option<string>, deviceId: Option<string>)

  /** One entry of the list sent as 'OnReceiveCameraList'. */
  datatype CameraOption = CameraOption(labelText: string, deviceId: string)

  predicate IsVideoInput(d: MediaDevice) {
    d.kind == VideoInputKind
  }

  /** JavaScript truthiness of an optional string: present and non-empty. */
  predicate Truthy(s: Option<string>) {
    s.Some? && s.value != ""
  }

  /** `deviceId?.substring(0, 4)` spliced into a template literal. */
  function IdPrefix(id: Option<string>): (r: string)
    ensures id.None? ==> r == Undefined
    ensures id.Some? ==> r <= id.value
    ensures id.Some? ==> |r| == if |id.value| < 4 then |id.value| else 4
  {
    match id
    case None => Undefined
    case Some(s) => if |s| <= 4 then s else s[..4]
  }

  /** The option a single video input becomes. */
  function OptionFor(d: MediaDevice): (o: CameraOption)
    ensures o.labelText != ""
    ensures Truthy(d.labelText) ==> o.labelText == d.labelText.value
    ensures !Truthy(d.labelText) ==> o.labelText == CameraPrefix + IdPrefix(d.deviceId)
    ensures o.deviceId == d.deviceId.GetOr("")
  {
    CameraOption(
      if Truthy(d.labelText) then d.labelText.value else CameraPrefix + IdPrefix(d.deviceId),
      if Truthy(d.deviceId) then d.deviceId.value else "")
  }

  /** Number of video inputs among `devices`. */
  function VideoInputCount(devices: seq<MediaDevice>): (n: nat)
    ensures n <= |devices|
  {
    if devices == [] then 0
    else (if IsVideoInput(devices[0]) then 1 else 0) + VideoInputCount(devices[1..])
  }

  /** The options of `listCameras`: filter to video inputs, then shape each one. */
  function CameraOptions(devices: seq<MediaDevice>): (r: seq<CameraOption>)
    ensures |r| == VideoInputCount(devices)
  {
    if devices == [] then []
    else (if IsVideoInput(devices[0]) then [OptionFor(devices[0])] else []) + CameraOptions(devices[1..])
  }

  /** Where device `j` lands in the option list: the number of video inputs before it. */
  function Rank(devices: seq<MediaDevice>, j: nat): nat
    requires j <= |devices|
  {
    VideoInputCount(devices[..j])
  }

  lemma {:induction false} VideoInputCountAppend(a: seq<MediaDevice>, b: seq<MediaDevice>)
    ensures VideoInputCount(a + b) == VideoInputCount(a) + VideoInputCount(b)
  {
    if a == [] {
      assert a + b == b;
    } else {
      assert (a + b)[1..] == a[1..] + b;
      VideoInputCountAppend(a[1..], b);
    }
  }

  /** Options of a concatenation are the concatenation of the options. */
  lemma {:induction false} CameraOptionsAppend(a: seq<MediaDevice>, b: seq<MediaDevice>)
    ensures CameraOptions(a + b) == CameraOptions(a) + CameraOptions(b)
  {
    if a == [] {
      assert a + b == b;
    } else {
      var head := if IsVideoInput(a[0]) then [OptionFor(a[0])] else [];
      assert (a + b)[0] == a[0];
      assert (a + b)[1..] == a[1..] + b;
      assert CameraOptions(a + b) == head + CameraOptions(a[1..] + b);
      CameraOptionsAppend(a[1..], b);
      assert CameraOptions(a) == head + CameraOptions(a[1..]);
    }
  }

  /** Every video input `j` yields its own option, at position `Rank(devices, j)`. */
  lemma {:induction false} OptionAtRank(devices: seq<MediaDevice>, j: nat)
    requires j < |devices| && IsVideoInput(devices[j])
    ensures Rank(devices, j) < |CameraOptions(devices)|
    ensures CameraOptions(devices)[Rank(devices, j)] == OptionFor(devices[j])
  {
    var pre, post := devices[..j], devices[j + 1..];
    assert devices == pre + ([devices[j]] + post);
    CameraOptionsAppend(pre, [devices[j]] + post);
    assert CameraOptions([devices[j]] + post) == [OptionFor(devices[j])] + CameraOptions(post) by {
      assert ([devices[j]] + post)[1..] == post;
    }
  }

  /** Video inputs keep their relative order in the option list. */
  lemma {:induction false} RankStrictlyIncreasing(devices: seq<MediaDevice>, i: nat, j: nat)
    requires i < j <= |devices| && IsVideoInput(devices[i])
    ensures Rank(devices, i) < Rank(devices, j)
  {
    assert devices[..j] == devices[..i] + ([devices[i]] + devices[i + 1..j]);
    VideoInputCountAppend(devices[..i], [devices[i]] + devices[i + 1..j]);
    VideoInputCountAppend([devices[i]], devices[i + 1..j]);
    assert VideoInputCount([devices[i]]) == 1 by {
      assert [devices[i]][1..] == [];
    }
  }

  /** A device that is not a video input contributes no option. */
  lemma {:induction false} NonVideoDropped(devices: seq<MediaDevice>, j: nat)
    requires j < |devices| && !IsVideoInput(devices[j])
    ensures Rank(devices, j + 1) == Rank(devices, j)
  {
    assert devices[..j + 1] == devices[..j] + [devices[j]];
    VideoInputCountAppend(devices[..j], [devices[j]]);
    assert [devices[j]][1..] == [];
  }
}

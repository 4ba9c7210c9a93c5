/** The live camera card (src/components/WebCameraCard.tsx): the handler that
    decodes `camera_data` payloads into three state cells, the guard that
    reports a missing socket, and the badge colour of the water level. */
module WebCameraCard {
  import opened JsValues
  import App

  /** The legacy `frame` field, by what the handler can tell about it:
      `Absent` stands for undefined, null and every other falsy value that
      is not a string (false, 0, NaN); `Text` for a string (falsy when
      empty); `Object` for a non-null object, whose own `image` field the
      handler reads; `TruthyScalar` for any other truthy value (a non-zero
      number, true), which is neither a string nor an object. */
  datatype Frame =
    | Absent
    | Text(text: string)
    | Object(image: Option<string>)
    | TruthyScalar

  /** A `camera_data` payload: the flat `image` field, the legacy `frame`
      field, and whether `fire_detected` is truthy. */
  datatype Payload = Payload(image: Option<string>, frame: Frame, fireDetected: bool)

  /** What one payload does to the card: nothing, or clear the error, set
      the fire flag and, when `image` is present, replace the picture. */
  datatype Decoded =
    | Ignored
    | Update(image: Option<string>, fireDetected: bool)

  /** The card's three state cells. */
  datatype CameraView = CameraView(imageData: Option<string>, fireDetected: bool, error: Option<string>)

  const NoConnectionError: string := "Camera feed unavailable: No connection to server"

  const Green: string := "bg-green-500"
  const Yellow: string := "bg-yellow-500"
  const Red: string := "bg-red-500"

  /** JavaScript truthiness of the `frame` field. */
  predicate FrameTruthy(f: Frame)
  {
    match f
    case Absent => false
    case Text(t) => t != ""
    case Object(_) => true
    case TruthyScalar => true
  }

  /** The picture a truthy legacy frame carries, if any. */
  function FrameImage(f: Frame): Option<string>
  {
    match f
    case Text(t) => if t != "" then Some(t) else None
    case Object(img) => if Truthy(img) then img else None
    case _ => None
  }

  /** The payload decoder. A null payload (`data` is None), or one with
      neither a truthy `image` nor a truthy `frame`, is ignored; any other
      payload updates the fire flag, and a picture, when it brings one, is
      never the empty string. A truthy `image` is the picture used. */
  function Decode(data: Option<Payload>): (r: Decoded)
    ensures r.Ignored? <==>
      data.None? || (!Truthy(data.value.image) && !FrameTruthy(data.value.frame))
    ensures r.Update? ==> r.fireDetected == data.value.fireDetected
    ensures r.Update? && r.image.Some? ==>
      r.image.value != "" &&
      (r.image == data.value.image || r.image == FrameImage(data.value.frame))
    ensures data.Some? && Truthy(data.value.image) ==> r.Update? && r.image == data.value.image
  {
    match data
    case None => Ignored
    case Some(p) =>
      if Truthy(p.image) then Update(p.image, p.fireDetected)
      else if FrameTruthy(p.frame) then Update(FrameImage(p.frame), p.fireDetected)
      else Ignored
  }

  /** The state after the handler has processed one payload. */
  function Step(v: CameraView, data: Option<Payload>): (r: CameraView)
    ensures r == v || r.error == None
    ensures r.imageData != v.imageData ==> Truthy(r.imageData)
  {
    match Decode(data)
    case Ignored => v
    case Update(img, fire) =>
      CameraView(if img.Some? then img else v.imageData, fire, None)
  }

  /** A truthy `image` wins: the frame is not looked at, whatever it is. */
  lemma ImageTakesPrecedence(v: CameraView, p: Payload, other: Frame)
    requires Truthy(p.image)
    ensures Step(v, Some(p)) == CameraView(p.image, p.fireDetected, None)
    ensures Step(v, Some(p)) == Step(v, Some(p.(frame := other)))
  {
  }

  /** Legacy payloads: a non-empty string frame, or an object frame with a
      truthy `image`, becomes the picture. */
  lemma LegacyFrameSetsImage(v: CameraView, p: Payload)
    requires !Truthy(p.image)
    ensures p.frame.Text? && p.frame.text != "" ==>
      Step(v, Some(p)) == CameraView(Some(p.frame.text), p.fireDetected, None)
    ensures p.frame.Object? && Truthy(p.frame.image) ==>
      Step(v, Some(p)) == CameraView(p.frame.image, p.fireDetected, None)
  {
  }

  /** A frame that is truthy but carries no picture (an object without a
      truthy `image`, or a truthy non-string non-object value) keeps the old
      picture but still sets the fire flag and clears the error. */
  lemma PicturelessFrameStillUpdates(v: CameraView, p: Payload)
    requires !Truthy(p.image)
    requires (p.frame.Object? && !Truthy(p.frame.image)) || p.frame.TruthyScalar?
    ensures Step(v, Some(p)) == v.(fireDetected := p.fireDetected, error := None)
  {
  }

  /** Unrecognised shapes are a silent no-op. */
  lemma UnrecognisedIgnored(v: CameraView, data: Option<Payload>)
    requires data.None? || (!Truthy(data.value.image) && !FrameTruthy(data.value.frame))
    ensures Step(v, data) == v
  {
  }

  /** Frames are not deduplicated, yet the handler only ever overwrites, so
      the same payload twice leaves the state it left once. */
  lemma StepIdempotent(v: CameraView, data: Option<Payload>)
    ensures Step(Step(v, data), data) == Step(v, data)
  {
  }

  /** The handler applied to a stream of payloads, in arrival order. */
  function Replay(v: CameraView, stream: seq<Option<Payload>>): CameraView
    decreases |stream|
  {
    if |stream| == 0 then v
    else Step(Replay(v, stream[..|stream| - 1]), stream[|stream| - 1])
  }

  /** The newest payload in `stream` that the handler does not ignore. */
  function LastRecognised(stream: seq<Option<Payload>>): (r: Option<Payload>)
    ensures r.Some? ==> Decode(Some(r.value)).Update?
    decreases |stream|
  {
    if |stream| == 0 then None
    else
      var d := stream[|stream| - 1];
      if Decode(d).Update? then d else LastRecognised(stream[..|stream| - 1])
  }

  /** The picture carried by the newest payload in `stream` that brings
      one, if any. */
  function LastPicture(stream: seq<Option<Payload>>): (r: Option<string>)
    ensures r.Some? ==> r.value != ""
    decreases |stream|
  {
    if |stream| == 0 then None
    else
      var d := Decode(stream[|stream| - 1]);
      if d.Update? && d.image.Some? then d.image else LastPicture(stream[..|stream| - 1])
  }

  /** Every recognised frame is forwarded, none is dropped as a duplicate:
      after a stream, the picture is the newest one any payload brought
      (or the old one if none did), the fire flag is that of the newest
      recognised payload and the error is cleared; a stream with no
      recognised payload leaves the card as it was. */
  lemma {:induction false} ReplayFollowsNewestFrame(v: CameraView, stream: seq<Option<Payload>>)
    ensures Replay(v, stream).imageData ==
      (if LastPicture(stream).Some? then LastPicture(stream) else v.imageData)
    ensures LastRecognised(stream).None? ==> Replay(v, stream) == v
    ensures LastRecognised(stream).Some? ==>
      Replay(v, stream).fireDetected == LastRecognised(stream).value.fireDetected &&
      Replay(v, stream).error == None
    decreases |stream|
  {
    if |stream| > 0 {
      ReplayFollowsNewestFrame(v, stream[..|stream| - 1]);
    }
  }

  /** The badge colour of a water-level label. The label is a string at run
      time, so any value other than the three tiers falls to the default. */
  function WaterLevelColor(levelName: string): (color: string)
    ensures color == Red <==> App.ParseLevel(levelName) == Some(App.Danger)
    ensures color == Yellow <==> App.ParseLevel(levelName) == Some(App.Caution)
    ensures color == Green <==> App.ParseLevel(levelName) !in {Some(App.Danger), Some(App.Caution)}
  {
    if levelName == "Low" then Green
    else if levelName == "Caution" then Yellow
    else if levelName == "DANGER" then Red
    else Green
  }

  /** Each tier gets its own colour. */
  lemma TierColors()
    ensures WaterLevelColor(App.LevelLabel(App.Low)) == Green
    ensures WaterLevelColor(App.LevelLabel(App.Caution)) == Yellow
    ensures WaterLevelColor(App.LevelLabel(App.Danger)) == Red
  {
  }

  /** The card component: its three state cells and whether its handler is
      registered on a socket. */
  class CameraCard {
    var imageData: Option<string>
    var fireDetected: bool
    var error: Option<string>
    var subscribed: bool

    function View(): CameraView
      reads this
    {
      CameraView(imageData, fireDetected, error)
    }

    /** A picture in the card is never the empty string. */
    ghost predicate Valid()
      reads this
    {
      imageData.Some? ==> imageData.value != ""
    }

    constructor ()
      ensures Valid() && !subscribed
      ensures View() == CameraView(None, false, None)
    {
      imageData := None;
      fireDetected := false;
      error := None;
      subscribed := false;
    }

    /** The effect that wires the handler up: without a socket it reports
        the missing connection and registers nothing. */
    method Connect(hasSocket: bool)
      requires Valid()
      modifies this
      ensures Valid()
      ensures subscribed == hasSocket
      ensures !hasSocket ==> View() == old(View()).(error := Some(NoConnectionError))
      ensures hasSocket ==> View() == old(View())
    {
      if !hasSocket {
        error := Some(NoConnectionError);
        subscribed := false;
        return;
      }
      subscribed := true;
    }

    /** The `camera_data` handler. */
    method HandleCameraData(data: Option<Payload>)
      requires Valid()
      modifies this`imageData, this`fireDetected, this`error
      ensures Valid()
      ensures View() == Step(old(View()), data)
    {
      if data.Some? && Truthy(data.value.image) {
        imageData := data.value.image;
        fireDetected := data.value.fireDetected;
        error := None;
      } else if data.Some? && FrameTruthy(data.value.frame) {
        var frame := data.value.frame;
        if frame.Text? {
          imageData := Some(frame.text);
        } else if frame.Object? && Truthy(frame.image) {
          imageData := frame.image;
        }
        fireDetected := data.value.fireDetected;
        error := None;
      }
    }
  }
}

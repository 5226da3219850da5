/** The player chrome's interactive state (components/WmpShell.tsx): the volume
    slider, driven by pointer events on its track, and the transport buttons,
    of which the last one clicked is highlighted.

    Coordinates are CSS pixels as reals. The track element's bounding box is a
    parameter of each event; `None` stands for a track that is not mounted. */
module WmpShell {
  import opened Optional
  import opened Numeric

  type Length = r: real | r >= 0.0

  /** The horizontal extent of the volume track's bounding box. */
  datatype TrackRect = TrackRect(left: real, width: Length)

  datatype Control = Prev | Play | Stop | Next

  /** The volume a pointer at `clientX` selects: its offset into the track,
      clamped to the track, as a fraction of the track's width; 0 on a track of
      zero width. */
  function VolumeAt(clientX: real, track: TrackRect): (v: real)
    ensures 0.0 <= v <= 1.0
    ensures track.width == 0.0 ==> v == 0.0
    ensures track.width > 0.0 ==> v * track.width == MinReal(MaxReal(clientX - track.left, 0.0), track.width)
    ensures clientX <= track.left ==> v == 0.0
    ensures clientX >= track.left + track.width ==> v == (if track.width == 0.0 then 0.0 else 1.0)
  {
    var x := MinReal(MaxReal(clientX - track.left, 0.0), track.width);
    if track.width == 0.0 then 0.0
    else
      Fraction(x, track.width);
      x / track.width
  }

  /** A part of a positive width, as a fraction of it. */
  lemma Fraction(x: real, w: real)
    requires 0.0 <= x <= w && w > 0.0
    ensures 0.0 <= x / w <= 1.0 && (x / w) * w == x
    ensures x == 0.0 ==> x / w == 0.0
    ensures x == w ==> x / w == 1.0
  {
  }

  /** Dragging to the right never lowers the volume. */
  lemma VolumeMonotone(a: real, b: real, track: TrackRect)
    requires a <= b
    ensures VolumeAt(a, track) <= VolumeAt(b, track)
  {
    if track.width > 0.0 {
      var xa := MinReal(MaxReal(a - track.left, 0.0), track.width);
      var xb := MinReal(MaxReal(b - track.left, 0.0), track.width);
      assert xa <= xb;
      DivideOrder(xa, xb, track.width);
    }
  }

  /** Dividing by a positive width keeps order. */
  lemma DivideOrder(x: real, y: real, w: real)
    requires w > 0.0 && x <= y
    ensures x / w <= y / w
  {
    var d := (y - x) / w;
    assert d * w == y - x;
    assert y / w - x / w == d;
  }

  /** Every volume is reachable, and the pointer that selects it sits at that
      fraction of the track: pressing at `left + v * width` gives back `v`. */
  lemma VolumeAtInverse(v: real, track: TrackRect)
    requires 0.0 <= v <= 1.0 && track.width > 0.0
    ensures VolumeAt(track.left + v * track.width, track) == v
  {
    var w := track.width;
    assert 0.0 <= v * w <= w;
    var r := VolumeAt(track.left + v * w, track);
    assert r * w == v * w;
  }

  /** `Math.round(volume * 100)`: JavaScript rounds halves upwards. */
  function AriaValueNow(volume: real): (n: int)
    ensures (n as real) - 0.5 <= volume * 100.0 < (n as real) + 0.5
    ensures 0.0 <= volume <= 1.0 ==> 0 <= n <= 100
  {
    (volume * 100.0 + 0.5).Floor
  }

  /** The announced value follows the volume, and the two ends read 0 and 100. */
  lemma AriaValueNowMonotone(a: real, b: real)
    requires a <= b
    ensures AriaValueNow(a) <= AriaValueNow(b)
    ensures AriaValueNow(0.0) == 0 && AriaValueNow(1.0) == 100
  {
  }

  class Shell {
    var activeControl: Option<Control>
    /** The volume, 0..1. */
    var volume: real
    var dragging: bool

    predicate Valid()
      reads this
    {
      0.0 <= volume <= 1.0
    }

    /** The state of a freshly mounted shell. */
    constructor ()
      ensures volume == 0.55 && !dragging && activeControl == None
      ensures Valid()
    {
      activeControl := None;
      volume := 0.55;
      dragging := false;
    }

    /** `setVolumeFromClientX`: nothing without a track; otherwise the volume
        the pointer selects. */
    method SetVolumeFromClientX(clientX: real, track: Option<TrackRect>)
      modifies this
      ensures track.None? ==> volume == old(volume)
      ensures track.Some? ==> volume == VolumeAt(clientX, track.value)
      ensures dragging == old(dragging) && activeControl == old(activeControl)
      ensures old(Valid()) ==> Valid()
    {
      if track.None? {
        return;
      }
      var rect := track.value;
      var x := MinReal(MaxReal(clientX - rect.left, 0.0), rect.width);
      var v := if rect.width == 0.0 then 0.0 else x / rect.width;
      volume := v;
    }

    /** `onVolumePointerDown`: capture the pointer, start dragging, and jump to
        the pressed position. */
    method PointerDown(clientX: real, track: Option<TrackRect>)
      modifies this
      ensures dragging
      ensures volume == if track.Some? then VolumeAt(clientX, track.value) else old(volume)
      ensures activeControl == old(activeControl)
      ensures old(Valid()) ==> Valid()
    {
      dragging := true;
      SetVolumeFromClientX(clientX, track);
    }

    /** `onVolumePointerMove`: follows the pointer only while dragging. */
    method PointerMove(clientX: real, track: Option<TrackRect>)
      modifies this
      ensures dragging == old(dragging) && activeControl == old(activeControl)
      ensures !old(dragging) ==> volume == old(volume)
      ensures old(dragging) ==> volume == if track.Some? then VolumeAt(clientX, track.value) else old(volume)
      ensures old(Valid()) ==> Valid()
    {
      if !dragging {
        return;
      }
      SetVolumeFromClientX(clientX, track);
    }

    /** `onVolumePointerUp`, also the pointer-cancel handler: stop dragging and
        release the pointer; the volume stays where it is. */
    method PointerUp()
      modifies this
      ensures !dragging
      ensures volume == old(volume) && activeControl == old(activeControl)
    {
      dragging := false;
    }

    /** A transport button's click: that control, and only it, is highlighted. */
    method Click(c: Control)
      modifies this
      ensures activeControl == Some(c)
      ensures forall d: Control :: activeControl == Some(d) <==> d == c
      ensures volume == old(volume) && dragging == old(dragging)
    {
      activeControl := Some(c);
    }
  }

  /** Press at `down`, drag to `move`, release, then move again to `after`: the
      volume is the one selected at `move`, and the pointer moving after the
      release changes nothing. */
  method DragThenRelease(track: TrackRect, down: real, move: real, after: real)
    returns (volume: real, announced: int)
    ensures volume == VolumeAt(move, track)
    ensures 0.0 <= volume <= 1.0 && 0 <= announced <= 100
    ensures announced == AriaValueNow(VolumeAt(move, track))
  {
    var s := new Shell();
    s.PointerDown(down, Some(track));
    s.PointerMove(move, Some(track));
    s.PointerUp();
    s.PointerMove(after, Some(track));
    volume := s.volume;
    announced := AriaValueNow(volume);
  }

  /** Clicking the transport buttons in turn leaves only the last one lit. */
  method ClickSequence(first: Control, second: Control) returns (active: Option<Control>, volume: real)
    ensures active == Some(second)
    ensures first != second ==> active != Some(first)
    ensures volume == 0.55
  {
    var s := new Shell();
    s.Click(first);
    s.Click(second);
    active := s.activeControl;
    volume := s.volume;
  }
}

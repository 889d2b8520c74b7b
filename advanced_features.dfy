/** The media-key dispatcher of AdvancedFeatures.handle_media: a command becomes a sequence of
    operating-system media key presses and a flag saying whether it was handled. */
module AdvancedFeatures {
  import opened Common

  /** Which branch of `handle_media` a command takes. */
  datatype MediaBranch =
    | LeftToYouTube      // contains "youtube" in any case: left to the web search
    | PlayPause
    | NextTrack
    | PreviousTrack
    | VolumeUp
    | VolumeDown
    | Mute
    | Unrecognised

  /** How many presses one volume command makes. */
  const VolumeSteps: nat := 5

  /** The branch chosen: only the YouTube test ignores case; the others look at the raw command,
      in this order. */
  function Branch(command: string): MediaBranch {
    if Contains(Lower(command), "youtube") then LeftToYouTube
    else if Contains(command, "play") || Contains(command, "pause") then PlayPause
    else if Contains(command, "next") then NextTrack
    else if Contains(command, "previous") then PreviousTrack
    else if Contains(command, "volume up") || Contains(command, "increase volume") then VolumeUp
    else if Contains(command, "volume down") || Contains(command, "decrease volume") then VolumeDown
    else if Contains(command, "mute") then Mute
    else Unrecognised
  }

  function Repeat(key: string, n: nat): (r: seq<string>)
    ensures |r| == n && forall i :: 0 <= i < n ==> r[i] == key
  {
    if n == 0 then [] else Repeat(key, n - 1) + [key]
  }

  /** The keys each branch presses, in order. */
  function KeysFor(branch: MediaBranch): seq<string> {
    match branch
    case PlayPause => ["playpause"]
    case NextTrack => ["nexttrack"]
    case PreviousTrack => ["prevtrack"]
    case VolumeUp => Repeat("volumeup", VolumeSteps)
    case VolumeDown => Repeat("volumedown", VolumeSteps)
    case Mute => ["volumemute"]
    case _ => []
  }

  /** A branch is handled exactly when it presses a key. */
  predicate Handled(branch: MediaBranch) {
    !(branch.LeftToYouTube? || branch.Unrecognised?)
  }

  /** `handle_media`: the presses made, in order, and the returned flag. */
  method HandleMedia(command: string) returns (presses: seq<string>, handled: bool)
    ensures presses == KeysFor(Branch(command))
    ensures handled == Handled(Branch(command))
    ensures handled <==> presses != []
  {
    presses := [];
    if Contains(Lower(command), "youtube") {
      return [], false;
    }
    if Contains(command, "play") || Contains(command, "pause") {
      presses := ["playpause"];
    } else if Contains(command, "next") {
      presses := ["nexttrack"];
    } else if Contains(command, "previous") {
      presses := ["prevtrack"];
    } else if Contains(command, "volume up") || Contains(command, "increase volume") {
      for i := 0 to VolumeSteps
        invariant presses == Repeat("volumeup", i)
      {
        presses := presses + ["volumeup"];
      }
    } else if Contains(command, "volume down") || Contains(command, "decrease volume") {
      for i := 0 to VolumeSteps
        invariant presses == Repeat("volumedown", i)
      {
        presses := presses + ["volumedown"];
      }
    } else if Contains(command, "mute") {
      presses := ["volumemute"];
    } else {
      return [], false;
    }
    handled := true;
  }

  /** The branches are tried in a fixed order and the first whose words occur wins; only the
      YouTube test looks at the lowercased command. */
  lemma BranchPriority(command: string)
    ensures var youtube := Contains(Lower(command), "youtube");
            var play := Contains(command, "play") || Contains(command, "pause");
            var next := Contains(command, "next");
            var previous := Contains(command, "previous");
            var up := Contains(command, "volume up") || Contains(command, "increase volume");
            var down := Contains(command, "volume down") || Contains(command, "decrease volume");
            var mute := Contains(command, "mute");
            && (Branch(command) == LeftToYouTube <==> youtube)
            && (Branch(command) == PlayPause <==> !youtube && play)
            && (Branch(command) == NextTrack <==> !youtube && !play && next)
            && (Branch(command) == PreviousTrack <==> !youtube && !play && !next && previous)
            && (Branch(command) == VolumeUp <==> !youtube && !play && !next && !previous && up)
            && (Branch(command) == VolumeDown <==> !youtube && !play && !next && !previous && !up && down)
            && (Branch(command) == Mute <==> !youtube && !play && !next && !previous && !up && !down && mute)
            && (Branch(command) == Unrecognised <==>
                  !youtube && !play && !next && !previous && !up && !down && !mute)
  {
  }

  /** Every key a branch presses is the same key, as often as the branch says. */
  lemma VolumeCommandsPressFiveTimes(command: string)
    ensures Branch(command) == VolumeUp ==>
              |KeysFor(Branch(command))| == 5 && forall i :: 0 <= i < 5 ==> KeysFor(Branch(command))[i] == "volumeup"
    ensures Branch(command) == VolumeDown ==>
              |KeysFor(Branch(command))| == 5 && forall i :: 0 <= i < 5 ==> KeysFor(Branch(command))[i] == "volumedown"
    ensures Branch(command) !in {VolumeUp, VolumeDown} ==> |KeysFor(Branch(command))| <= 1
  {
  }

  /** "youtube" in any case sends the command to the web search with no key pressed. */
  lemma YouTubeIsLeftAlone(command: string)
    requires Contains(Lower(command), "youtube")
    ensures KeysFor(Branch(command)) == [] && !Handled(Branch(command))
  {
  }

  /** "play" is tested before "next": "play next" toggles play/pause. */
  lemma PlayNextToggles()
    ensures KeysFor(Branch("play next")) == ["playpause"]
  {
    var c := "play next";
    assert OccursAt(c, "play", 0);
    var l := Lower(c);
    assert l == c;
    MissingCharNotContained(l, "youtube", 'u');
  }

  /** "unmute" falls to the "mute" branch. */
  lemma UnmuteMutes(command: string)
    requires Contains(command, "unmute")
    requires Branch(command) !in {LeftToYouTube, PlayPause, NextTrack, PreviousTrack, VolumeUp, VolumeDown}
    ensures KeysFor(Branch(command)) == ["volumemute"]
  {
    assert OccursAt("unmute", "mute", 2);
    ContainsTransitive(command, "unmute", "mute");
  }

  /** The tests other than YouTube are case-sensitive: "PAUSE" is not recognised. */
  lemma UpperCaseIsUnrecognised()
    ensures Branch("PAUSE") == Unrecognised
  {
    var c := "PAUSE";
    var l := Lower(c);
    assert l == "pause";
    MissingCharNotContained(l, "youtube", 'y');
    MissingCharNotContained(c, "play", 'p');
    MissingCharNotContained(c, "pause", 'p');
    MissingCharNotContained(c, "next", 'n');
    MissingCharNotContained(c, "mute", 'm');
  }
}

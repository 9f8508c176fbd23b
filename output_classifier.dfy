/**
 * The patterns the launcher applies to the game process's output
 * (landing.js:418-419, 535, 549, 559-574). JavaScript regular expressions
 * are written out as the splits they accept: `.+` is a non-empty run of
 * characters that are not line terminators, an unanchored pattern may match
 * anywhere in the chunk, and GAME_LAUNCH_REGEX is anchored at both ends.
 */
module OutputClassifier {
  import opened Wrappers
  import opened Text

  /** The `.+` pieces: no line terminator anywhere in `s[from..to]`. */
  predicate NoLineTerminatorIn(s: string, from: nat, to: nat)
    requires from <= to <= |s|
  {
    forall m | from <= m < to :: !IsLineTerminator(s[m])
  }

  /**
   * Unanchored `\[.+\]: <message>`: a `[` at `i`, a non-empty run of
   * non-terminators, then `]: ` followed by the message at `k`.
   */
  predicate HasTaggedMessage(s: string, message: string) {
    exists k: nat, i: nat | k <= |s| && i < k :: TaggedAt(s, message, i, k)
  }

  /** The tag opens at `i` and the `]: <message>` part starts at `k`. */
  predicate TaggedAt(s: string, message: string, i: nat, k: nat)
    requires i < k <= |s|
  {
    i + 2 <= k && s[i] == '[' && NoLineTerminatorIn(s, i + 1, k) && OccursAt(s, "]: " + message, k)
  }

  /** GAME_JOINED_REGEX `/\[.+\]: Sound engine started/`. */
  predicate IsSoundEngineStarted(s: string) {
    HasTaggedMessage(s, "Sound engine started")
  }

  /** SERVER_JOINED_REGEX, built per launch from the account's display name (taken literally). */
  predicate IsServerJoined(displayName: string, s: string) {
    HasTaggedMessage(s, "[CHAT] " + displayName + " joined the game")
  }

  const ForgeHead := "MinecraftForge "
  const ForgeTail := " Initialized"
  const ModLauncherHead := "ModLauncher "
  const ModLauncherMiddle := " starting: "
  const FabricHead := "Loading Minecraft "
  const FabricMiddle := " with Fabric Loader "

  /** `head .+ tail`, the whole of `b`. */
  predicate HeadDotsTail(b: string, head: string, tail: string) {
    |b| > |head| + |tail| && OccursAt(b, head, 0) && OccursAt(b, tail, |b| - |tail|)
  }

  /** `head .+ middle .+`, the whole of `b`. */
  predicate HeadDotsMiddleDots(b: string, head: string, middle: string) {
    OccursAt(b, head, 0) &&
    exists j: nat | j <= |b| :: MiddleAt(b, head, middle, j)
  }

  /** `middle` sits at `j`, with a non-empty run after `head` before it and a non-empty run after it. */
  predicate MiddleAt(b: string, head: string, middle: string, j: nat) {
    |head| < j && j + |middle| < |b| && OccursAt(b, middle, j)
  }

  /** The three alternatives of GAME_LAUNCH_REGEX after the `]: `. */
  predicate IsLoaderBanner(b: string) {
    || HeadDotsTail(b, ForgeHead, ForgeTail)
    || HeadDotsMiddleDots(b, ModLauncherHead, ModLauncherMiddle)
    || HeadDotsMiddleDots(b, FabricHead, FabricMiddle)
  }

  /**
   * GAME_LAUNCH_REGEX, anchored: the whole line is `[`, a non-empty tag,
   * `]: ` and one loader banner. None of the literal parts holds a line
   * terminator, so neither may the line.
   */
  predicate IsLaunchBanner(line: string) {
    NoLineTerminator(line) && |line| > 0 && line[0] == '[' &&
    exists k: nat | k <= |line| :: BannerAt(line, k)
  }

  /** The `]: ` separator is at `k` and a loader banner fills the rest of the line. */
  predicate BannerAt(line: string, k: nat) {
    2 <= k && OccursAt(line, "]: ", k) && IsLoaderBanner(line[k + 3..])
  }

  const LaunchWrapperMissing := "Could not find or load main class net.minecraft.launchwrapper.Launch"

  /** `gameErrorListener`'s test on a stderr chunk (landing.js:569-570). */
  predicate IsLaunchWrapperFailure(chunk: string) {
    Contains(Trim(chunk), LaunchWrapperMissing)
  }

  /** What `DiscordWrapper.updateDetails` is told. */
  datatype Presence = Loading | Joining | Joined

  /**
   * `gameStateChange` (landing.js:559-566): the presence update a stdout
   * chunk causes, if any. The join message is tested first.
   */
  function ClassifyGameState(displayName: string, chunk: string): Option<Presence> {
    var line := Trim(chunk);
    if IsServerJoined(displayName, line) then Some(Joined)
    else if IsSoundEngineStarted(line) then Some(Joining)
    else None
  }

  /** The join announcement yields Joined, the sound engine line otherwise Joining, and nothing yields Loading. */
  lemma ClassifyGameStateIff(displayName: string, chunk: string)
    ensures var p := ClassifyGameState(displayName, chunk);
      && (p == Some(Joined) <==> IsServerJoined(displayName, Trim(chunk)))
      && (p == Some(Joining) <==> !IsServerJoined(displayName, Trim(chunk)) && IsSoundEngineStarted(Trim(chunk)))
      && p != Some(Loading)
  {
  }

  /** Where `Trim` cut `s`: everything before `a` and after the kept part is whitespace. */
  lemma TrimBounds(s: string) returns (a: nat)
    ensures a + |Trim(s)| <= |s| && Trim(s) == s[a..a + |Trim(s)|]
    ensures forall j | 0 <= j < a :: IsWhitespace(s[j])
    ensures forall j | a + |Trim(s)| <= j < |s| :: IsWhitespace(s[j])
  {
    var t := TrimStart(s);
    a := |s| - |t|;
    TrimStartDropsWhitespace(s);
    TrimSliceBack(s, a, t);
  }

  /** The tail-trim of the suffix `t == s[a..]` is a slice of `s` followed by whitespace only. */
  lemma TrimSliceBack(s: string, a: nat, t: string)
    requires a <= |s| && t == s[a..]
    ensures a + |TrimEnd(t)| <= |s| && TrimEnd(t) == s[a..a + |TrimEnd(t)|]
    ensures forall j | a + |TrimEnd(t)| <= j < |s| :: IsWhitespace(s[j])
  {
    var r := TrimEnd(t);
    TrimEndDropsWhitespace(t);
    forall j | a + |r| <= j < |s| ensures IsWhitespace(s[j]) {
      assert s[j] == t[j - a];
    }
    assert r == t[..|r|];
  }

  /** An occurrence in the trimmed chunk is an occurrence in the chunk. */
  lemma ContainsOfTrim(s: string, needle: string)
    requires Contains(Trim(s), needle)
    ensures Contains(s, needle)
  {
    var a := TrimBounds(s);
    var r := Trim(s);
    var i: nat :| i <= |r| && OccursAt(r, needle, i);
    OccursInSlice(s, a, |r|, needle, i);
  }

  /** An occurrence inside the slice `s[a..a + n]` is an occurrence in `s`. */
  lemma OccursInSlice(s: string, a: nat, n: nat, needle: string, i: nat)
    requires a + n <= |s| && OccursAt(s[a..a + n], needle, i)
    ensures OccursAt(s, needle, a + i)
  {
    forall j | 0 <= j < |needle| ensures s[a + i + j] == needle[j] {
      assert needle[j] == s[a..a + n][i..i + |needle|][j];
    }
    assert s[a + i..a + i + |needle|] == needle;
  }

  /** An occurrence of a needle that starts and ends with a non-space survives the trim. */
  lemma ContainsTrimmed(s: string, needle: string, i: nat)
    requires needle != [] && !IsWhitespace(needle[0]) && !IsWhitespace(needle[|needle| - 1])
    requires OccursAt(s, needle, i)
    ensures Contains(Trim(s), needle)
  {
    var a := TrimmedSpan(s, needle, i);
    OccursInSliceBack(s, a, |Trim(s)|, needle, i);
    assert OccursAt(Trim(s), needle, i - a);
  }

  /** Such an occurrence lies wholly inside the part of `s` that `Trim` keeps. */
  lemma TrimmedSpan(s: string, needle: string, i: nat) returns (a: nat)
    requires needle != [] && !IsWhitespace(needle[0]) && !IsWhitespace(needle[|needle| - 1])
    requires OccursAt(s, needle, i)
    ensures a <= i && i + |needle| <= a + |Trim(s)| <= |s| && Trim(s) == s[a..a + |Trim(s)|]
  {
    a := TrimBounds(s);
    OccursEnds(s, needle, i);
  }

  /** An occurrence starts and ends with the needle's first and last characters. */
  lemma OccursEnds(s: string, needle: string, i: nat)
    requires needle != [] && OccursAt(s, needle, i)
    ensures s[i] == needle[0] && s[i + |needle| - 1] == needle[|needle| - 1]
  {
    assert s[i..i + |needle|][0] == needle[0];
    assert s[i..i + |needle|][|needle| - 1] == needle[|needle| - 1];
  }

  /** An occurrence of `needle` lying inside `s[a..a + n]` is an occurrence in that slice. */
  lemma OccursInSliceBack(s: string, a: nat, n: nat, needle: string, i: nat)
    requires a <= i && i + |needle| <= a + n <= |s| && OccursAt(s, needle, i)
    ensures OccursAt(s[a..a + n], needle, i - a)
  {
    forall j | 0 <= j < |needle| ensures s[a..a + n][i - a + j] == needle[j] {
      assert needle[j] == s[i..i + |needle|][j];
    }
    assert s[a..a + n][i - a..i - a + |needle|] == needle;
  }

  /**
   * Trimming a chunk before the `indexOf` test changes nothing for a needle
   * that starts and ends with a non-space, such as the launch-wrapper message.
   */
  lemma ContainsTrimIff(s: string, needle: string)
    requires needle != [] && !IsWhitespace(needle[0]) && !IsWhitespace(needle[|needle| - 1])
    ensures Contains(Trim(s), needle) <==> Contains(s, needle)
  {
    if Contains(Trim(s), needle) {
      ContainsOfTrim(s, needle);
    }
    if Contains(s, needle) {
      var i: nat :| i <= |s| && OccursAt(s, needle, i);
      ContainsTrimmed(s, needle, i);
    }
  }

  /** `b` occurs in `a + b + c` right after `a`. */
  lemma OccursAfter(a: string, b: string, c: string)
    ensures OccursAt(a + b + c, b, |a|)
  {
    assert (a + b + c)[|a|..|a| + |b|] == b;
  }

  /** `[tag]: ` followed by `body`, where the tag holds no line terminator. */
  function Tagged(tag: string, body: string): string {
    "[" + tag + "]: " + body
  }

  /** The `[tag]: ` part of a tagged line is the tag pattern of the classifier. */
  lemma TaggedShape(tag: string, body: string)
    requires tag != [] && NoLineTerminator(tag)
    ensures OccursAt(Tagged(tag, body), "]: " + body, |tag| + 1)
    ensures NoLineTerminatorIn(Tagged(tag, body), 1, |tag| + 1)
    ensures Tagged(tag, body)[0] == '[' && Tagged(tag, body)[|tag| + 4..] == body
  {
    var line := Tagged(tag, body);
    assert line == "[" + tag + ("]: " + body);
    OccursAfter("[" + tag, "]: " + body, "");
    assert "[" + tag + ("]: " + body) + "" == line;
    forall m | 1 <= m < |tag| + 1 ensures !IsLineTerminator(line[m]) {
      assert line[m] == tag[m - 1];
    }
  }

  /** A concatenation is free of line terminators exactly when both parts are. */
  lemma NoLineTerminatorConcat(a: string, b: string)
    ensures NoLineTerminator(a + b) <==> NoLineTerminator(a) && NoLineTerminator(b)
  {
    if NoLineTerminator(a + b) {
      forall m | 0 <= m < |b| ensures !IsLineTerminator(b[m]) {
        assert b[m] == (a + b)[|a| + m];
      }
      forall m | 0 <= m < |a| ensures !IsLineTerminator(a[m]) {
        assert a[m] == (a + b)[m];
      }
    }
  }

  /** Every Forge banner, whatever its tag and version text, counts as launch completion. */
  lemma ForgeBannerCounts(tag: string, version: string)
    requires tag != [] && version != []
    requires NoLineTerminator(tag) && NoLineTerminator(version)
    ensures IsLaunchBanner(Tagged(tag, ForgeHead + version + ForgeTail))
  {
    var b := ForgeHead + version + ForgeTail;
    ForgeBodyShape(version);
    LoaderLiteralsOneLine();
    NoLineTerminatorConcat(ForgeHead, version);
    NoLineTerminatorConcat(ForgeHead + version, ForgeTail);
    BannerLineCounts(tag, b);
  }

  /** Every ModLauncher banner, whatever its tag, version and target, counts as launch completion. */
  lemma ModLauncherBannerCounts(tag: string, version: string, target: string)
    requires tag != [] && version != [] && target != []
    requires NoLineTerminator(tag) && NoLineTerminator(version) && NoLineTerminator(target)
    ensures IsLaunchBanner(Tagged(tag, ModLauncherHead + version + ModLauncherMiddle + target))
  {
    var b := ModLauncherHead + version + ModLauncherMiddle + target;
    MiddleBodyShape(ModLauncherHead, version, ModLauncherMiddle, target);
    LoaderLiteralsOneLine();
    OneLineConcat4(ModLauncherHead, version, ModLauncherMiddle, target);
    BannerLineCounts(tag, b);
  }

  /** Every Fabric banner, whatever its tag, game version and loader version, counts as launch completion. */
  lemma FabricBannerCounts(tag: string, game: string, loader: string)
    requires tag != [] && game != [] && loader != []
    requires NoLineTerminator(tag) && NoLineTerminator(game) && NoLineTerminator(loader)
    ensures IsLaunchBanner(Tagged(tag, FabricHead + game + FabricMiddle + loader))
  {
    var b := FabricHead + game + FabricMiddle + loader;
    MiddleBodyShape(FabricHead, game, FabricMiddle, loader);
    LoaderLiteralsOneLine();
    OneLineConcat4(FabricHead, game, FabricMiddle, loader);
    BannerLineCounts(tag, b);
  }

  /** None of the literal parts of the loader banners holds a line terminator. */
  lemma LoaderLiteralsOneLine()
    ensures NoLineTerminator(ForgeHead) && NoLineTerminator(ForgeTail)
    ensures NoLineTerminator(ModLauncherHead) && NoLineTerminator(ModLauncherMiddle)
    ensures NoLineTerminator(FabricHead) && NoLineTerminator(FabricMiddle)
  {
  }

  /** Four one-line pieces make a one-line string. */
  lemma OneLineConcat4(a: string, b: string, c: string, d: string)
    requires NoLineTerminator(a) && NoLineTerminator(b) && NoLineTerminator(c) && NoLineTerminator(d)
    ensures NoLineTerminator(a + b + c + d)
  {
    NoLineTerminatorConcat(a, b);
    NoLineTerminatorConcat(a + b, c);
    NoLineTerminatorConcat(a + b + c, d);
  }

  /** A loader banner without line terminators, behind any one-line tag, is a launch banner line. */
  lemma BannerLineCounts(tag: string, b: string)
    requires tag != [] && NoLineTerminator(tag) && NoLineTerminator(b) && IsLoaderBanner(b)
    ensures IsLaunchBanner(Tagged(tag, b))
  {
    var line := Tagged(tag, b);
    var k := |tag| + 1;
    TaggedShape(tag, b);
    TaggedSeparator(tag, b);
    assert NoLineTerminator("[") && NoLineTerminator("]: ");
    NoLineTerminatorConcat("[", tag);
    NoLineTerminatorConcat("[" + tag, "]: ");
    NoLineTerminatorConcat("[" + tag + "]: ", b);
    assert line[k + 3..] == b;
    assert k <= |line| && BannerAt(line, k);
  }

  /** The `]: ` of a tagged line sits right after the tag. */
  lemma TaggedSeparator(tag: string, body: string)
    ensures OccursAt(Tagged(tag, body), "]: ", |tag| + 1)
  {
    OccursAfter("[" + tag, "]: ", body);
  }

  /** `MinecraftForge <version> Initialized` is the Forge alternative. */
  lemma ForgeBodyShape(version: string)
    requires version != []
    ensures HeadDotsTail(ForgeHead + version + ForgeTail, ForgeHead, ForgeTail)
  {
    var b := ForgeHead + version + ForgeTail;
    OccursAfter("", ForgeHead, version + ForgeTail);
    OccursAfter(ForgeHead + version, ForgeTail, "");
    assert "" + ForgeHead + (version + ForgeTail) == b;
    assert ForgeHead + version + ForgeTail + "" == b;
  }

  /** `head x middle y` with non-empty runs `x` and `y` has the shape `head .+ middle .+`. */
  lemma MiddleBodyShape(head: string, x: string, middle: string, y: string)
    requires x != [] && y != []
    ensures HeadDotsMiddleDots(head + x + middle + y, head, middle)
  {
    var b := head + x + middle + y;
    OccursAfter("", head, x + middle + y);
    assert "" + head + (x + middle + y) == b;
    OccursAfter(head + x, middle, y);
    assert MiddleAt(b, head, middle, |head + x|);
  }

  /** The chat line announcing the player's own join is recognised as Joined, whatever the tag. */
  lemma OwnJoinRecognised(tag: string, displayName: string)
    requires tag != [] && NoLineTerminator(tag)
    ensures ClassifyGameState(displayName, Tagged(tag, "[CHAT] " + displayName + " joined the game")) == Some(Joined)
  {
    var message := "[CHAT] " + displayName + " joined the game";
    var line := Tagged(tag, message);
    TaggedHasMessage(tag, message);
    TaggedShape(tag, message);
    assert line[0] == '[' && line[|line| - 1] == 'e';
    TrimOfTrimmed(line);
    ClassifyGameStateIff(displayName, line);
  }

  /** A tagged line carries its message in the `[tag]: message` shape. */
  lemma TaggedHasMessage(tag: string, message: string)
    requires tag != [] && NoLineTerminator(tag)
    ensures HasTaggedMessage(Tagged(tag, message), message)
  {
    TaggedShape(tag, message);
    assert TaggedAt(Tagged(tag, message), message, 0, |tag| + 1);
  }

  /** gameStateChange reacts only to tagged lines: a trimmed chunk without `]: ` changes no presence. */
  lemma UntaggedChunkIgnored(displayName: string, chunk: string)
    requires !Contains(Trim(chunk), "]: ")
    ensures ClassifyGameState(displayName, chunk) == None
  {
    var line := Trim(chunk);
    if IsServerJoined(displayName, line) {
      TaggedMessageHasSeparator(line, "[CHAT] " + displayName + " joined the game");
    }
    if IsSoundEngineStarted(line) {
      TaggedMessageHasSeparator(line, "Sound engine started");
    }
  }

  /** A line matching `\[.+\]: <message>` holds the `]: ` separator. */
  lemma TaggedMessageHasSeparator(s: string, message: string)
    requires HasTaggedMessage(s, message)
    ensures Contains(s, "]: ")
  {
    var k: nat, i: nat :| k <= |s| && i < k && TaggedAt(s, message, i, k);
    assert s[k..k + 3] == s[k..k + |"]: " + message|][..3];
    assert OccursAt(s, "]: ", k);
  }

  /**
   * The game's own sound engine line, `[tag]: Sound engine started`, shows
   * the player as joining: whatever the display name, it cannot pass for
   * the join announcement, as long as the tag holds no `]: ` of its own.
   */
  lemma SoundEngineLineJoining(tag: string, displayName: string)
    requires tag != [] && NoLineTerminator(tag) && !Contains(tag, "]: ")
    ensures ClassifyGameState(displayName, Tagged(tag, "Sound engine started")) == Some(Joining)
  {
    var m := "Sound engine started";
    var line := Tagged(tag, m);
    TaggedHasMessage(tag, m);
    TaggedShape(tag, m);
    assert line[0] == '[' && line[|line| - 1] == 'd';
    TrimOfTrimmed(line);
    SoundEngineLineIsNoJoin(tag, displayName);
    ClassifyGameStateIff(displayName, line);
  }

  /** The sound engine line never carries a join announcement after its separator. */
  lemma SoundEngineLineIsNoJoin(tag: string, displayName: string)
    requires !Contains(tag, "]: ")
    ensures !IsServerJoined(displayName, Tagged(tag, "Sound engine started"))
  {
    var m := "Sound engine started";
    var line := Tagged(tag, m);
    var join := "[CHAT] " + displayName + " joined the game";
    if IsServerJoined(displayName, line) {
      var k: nat, i: nat :| k <= |line| && i < k && TaggedAt(line, join, i, k);
      OccursSplit(line, "]: ", join, k);
      SeparatorOnlyAfterTag(tag, m, k);
      assert false;
    }
  }

  /** An occurrence of `a + b` is an occurrence of `a` followed by the first character of `b`. */
  lemma OccursSplit(s: string, a: string, b: string, k: nat)
    requires b != [] && OccursAt(s, a + b, k)
    ensures OccursAt(s, a, k) && s[k + |a|] == b[0]
  {
    assert s[k..k + |a|] == s[k..k + |a + b|][..|a|];
    assert s[k + |a|] == s[k..k + |a + b|][|a|];
  }

  /** In `[tag]: body`, with no `]: ` in the tag and no `]` in the body, the only separator follows the tag. */
  lemma SeparatorOnlyAfterTag(tag: string, body: string, k: nat)
    requires !Contains(tag, "]: ") && forall j | 0 <= j < |body| :: body[j] != ']'
    requires OccursAt(Tagged(tag, body), "]: ", k)
    ensures k == |tag| + 1
  {
    var line := Tagged(tag, body);
    assert line[k] == ']' && line[k + 1] == ':' && line[k + 2] == ' ' by {
      assert line[k..k + 3] == "]: ";
    }
    var c0 := TaggedChar(tag, body, k);
    var c1 := TaggedChar(tag, body, k + 1);
    var c2 := TaggedChar(tag, body, k + 2);
    if 1 <= k && k + 3 <= |tag| + 1 {
      NoSeparatorAt(tag, k - 1);
    }
  }

  /** A string that does not contain `]: ` has no `]`, `:`, ` ` run at any position. */
  lemma NoSeparatorAt(s: string, p: nat)
    requires !Contains(s, "]: ") && p + 3 <= |s|
    ensures !(s[p] == ']' && s[p + 1] == ':' && s[p + 2] == ' ')
  {
    assert !OccursAt(s, "]: ", p);
  }

  /** The character at `p` of `[tag]: body`, read off its four parts. */
  lemma TaggedChar(tag: string, body: string, p: nat) returns (c: char)
    requires p < |Tagged(tag, body)|
    ensures c == Tagged(tag, body)[p]
    ensures c == if p == 0 then '['
                 else if p <= |tag| then tag[p - 1]
                 else if p == |tag| + 1 then ']'
                 else if p == |tag| + 2 then ':'
                 else if p == |tag| + 3 then ' '
                 else body[p - |tag| - 4]
  {
    var line := Tagged(tag, body);
    assert line == "[" + tag + "]: " + body;
    c := line[p];
  }

  /** A chunk that announces both the join and the sound engine yields Joined: the join test comes first. */
  lemma JoinedTakesPriority(displayName: string, chunk: string)
    requires IsServerJoined(displayName, Trim(chunk)) && IsSoundEngineStarted(Trim(chunk))
    ensures ClassifyGameState(displayName, chunk) == Some(Joined)
  {
  }
}

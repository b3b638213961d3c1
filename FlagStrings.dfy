/** The Redumper flag vocabulary: the spellings written to and read from the command line, and the presence-map keys. */
module FlagStrings {
  import opened Strings

  // General
  const HelpLong: string := "--help"
  const HelpShort: string := "-h"
  const Version: string := "--version"
  const Verbose: string := "--verbose"
  const AutoEject: string := "--auto-eject"
  const Debug: string := "--debug"
  const Drive: string := "--drive"
  const Speed: string := "--speed"
  const Retries: string := "--retries"
  const ImagePath: string := "--image-path"
  const ImageName: string := "--image-name"
  const Overwrite: string := "--overwrite"

  // Drive Configuration
  const DriveType: string := "--drive-type"
  const DriveReadOffset: string := "--drive-read-offset"
  const DriveC2Shift: string := "--drive-c2-shift"
  const DrivePregapStart: string := "--drive-pregap-start"
  const DriveReadMethod: string := "--drive-read-method"
  const DriveSectorOrder: string := "--drive-sector-order"

  // Drive Specific
  const PlextorSkipLeadin: string := "--plextor-skip-leadin"
  const PlextorLeadinRetries: string := "--plextor-leadin-retries"
  const AsusSkipLeadout: string := "--asus-skip-leadout"

  // Offset
  const ForceOffset: string := "--force-offset"
  const AudioSilenceThreshold: string := "--audio-silence-threshold"
  const CorrectOffsetShift: string := "--correct-offset-shift"
  const OffsetShiftRelocate: string := "--offset-shift-relocate"

  // Split
  const ForceSplit: string := "--force-split"
  const LeaveUnchanged: string := "--leave-unchanged"
  const ForceQTOC: string := "--force-qtoc"
  const SkipFill: string := "--skip-fill"
  const ISO9660Trim: string := "--iso9660-trim"

  // Miscellaneous
  const LBAStart: string := "--lba-start"
  const LBAEnd: string := "--lba-end"
  const RefineSubchannel: string := "--refine-subchannel"
  const Skip: string := "--skip"
  const DumpWriteOffset: string := "--dump-write-offset"
  const DumpReadSize: string := "--dump-read-size"
  const OverreadLeadout: string := "--overread-leadout"
  const ForceUnscrambled: string := "--force-unscrambled"
  const LegacySubs: string := "--legacy-subs"
  const DisableCDText: string := "--disable-cdtext"

  /** Every flag constant, in declaration order. */
  const All: seq<string> := [
    HelpLong, HelpShort, Version, Verbose, AutoEject, Debug, Drive, Speed, Retries, ImagePath, ImageName, Overwrite,
    DriveType, DriveReadOffset, DriveC2Shift, DrivePregapStart, DriveReadMethod, DriveSectorOrder,
    PlextorSkipLeadin, PlextorLeadinRetries, AsusSkipLeadout,
    ForceOffset, AudioSilenceThreshold, CorrectOffsetShift, OffsetShiftRelocate,
    ForceSplit, LeaveUnchanged, ForceQTOC, SkipFill, ISO9660Trim,
    LBAStart, LBAEnd, RefineSubchannel, Skip, DumpWriteOffset, DumpReadSize,
    OverreadLeadout, ForceUnscrambled, LegacySubs, DisableCDText]

  /** Generation writes every constant except `-h`, in declaration order. */
  const GenerationOrder: seq<string> := [All[0]] + All[2..]

  /** The presence-map keys parsing can mark: every flag it reads, under its long spelling (`-h` marks `--help`). */
  const Parsed: set<string> := {
    HelpLong, Version, Verbose, Debug, Drive, Speed, Retries, ImagePath, ImageName, Overwrite,
    DriveType, DriveReadOffset, DriveC2Shift, DrivePregapStart, DriveReadMethod, DriveSectorOrder,
    PlextorSkipLeadin, PlextorLeadinRetries, AsusSkipLeadout,
    ForceOffset, AudioSilenceThreshold, CorrectOffsetShift, OffsetShiftRelocate,
    ForceSplit, LeaveUnchanged, ForceQTOC, SkipFill, ISO9660Trim,
    LBAStart, LBAEnd, RefineSubchannel, Skip, DumpWriteOffset, DumpReadSize,
    OverreadLeadout, ForceUnscrambled, LegacySubs, DisableCDText}

  /** The flags that are written bare, without a value. */
  const Bare: set<string> := {
    HelpLong, Version, Verbose, AutoEject, Debug, Overwrite,
    PlextorSkipLeadin, AsusSkipLeadout, CorrectOffsetShift, OffsetShiftRelocate,
    ForceSplit, LeaveUnchanged, ForceQTOC, ISO9660Trim,
    RefineSubchannel, OverreadLeadout, ForceUnscrambled, LegacySubs, DisableCDText}

  /** The tokens that name a flag without a value: the bare flags and `-h`. */
  const BareTokens: set<string> := Bare + {HelpShort}

  /** The keys each parsing region may mark; `--auto-eject` is read by none. */
  const GeneralKeys: set<string> := {HelpLong, Version, Verbose, Debug, Drive, Speed, Retries, ImagePath, ImageName, Overwrite}
  const DriveConfigurationKeys: set<string> := {DriveType, DriveReadOffset, DriveC2Shift, DrivePregapStart, DriveReadMethod, DriveSectorOrder}
  const DriveSpecificAndOffsetKeys: set<string> := {PlextorSkipLeadin, PlextorLeadinRetries, AsusSkipLeadout, ForceOffset,
                                                    AudioSilenceThreshold, CorrectOffsetShift, OffsetShiftRelocate}
  const SplitKeys: set<string> := {ForceSplit, LeaveUnchanged, ForceQTOC, SkipFill, ISO9660Trim}
  const MiscellaneousKeys: set<string> := {LBAStart, LBAEnd, RefineSubchannel, Skip, DumpWriteOffset, DumpReadSize,
                                           OverreadLeadout, ForceUnscrambled, LegacySubs, DisableCDText}

  /** The flags among them that carry a value (every Drive Configuration flag does). */
  const GeneralValued: set<string> := {Drive, Speed, Retries, ImagePath, ImageName}
  const DriveSpecificAndOffsetValued: set<string> := {PlextorLeadinRetries, ForceOffset, AudioSilenceThreshold}
  const MiscellaneousValued: set<string> := {LBAStart, LBAEnd, Skip, DumpWriteOffset, DumpReadSize}

  const SplitValued: set<string> := {SkipFill}

  /** Every flag parsing reads with a value. */
  const Valued: set<string> := GeneralValued + DriveConfigurationKeys + DriveSpecificAndOffsetValued + SplitValued + MiscellaneousValued

  /** The flags whose value is text (a drive, a path, a name, a method, an order, a skip list); the others take a number. */
  const TextValued: set<string> := PathValued + PlainTextValued

  /** The text flags whose value is a path or a file name, kept in one pair of quotes. */
  const PathValued: set<string> := {ImagePath, ImageName}

  /** The text flags whose value is kept as read, without its surrounding quotes. */
  const PlainTextValued: set<string> := {Drive, DriveType, DriveReadMethod, DriveSectorOrder, Skip}

  /** The flags whose value is a 32-bit integer; the skip-fill byte is the only other number. */
  const Int32Valued: set<string> := {Speed, Retries, DriveReadOffset, DriveC2Shift, DrivePregapStart, PlextorLeadinRetries,
                                     ForceOffset, AudioSilenceThreshold, LBAStart, LBAEnd, DumpWriteOffset, DumpReadSize}

  /** The General valueless flags under their long spellings, and the valueless flags the readers mark. */
  const GeneralSwitches: set<string> := {HelpLong, Version, Verbose, Debug, Overwrite}
  const Switches: set<string> := GeneralSwitches + DriveSpecificAndOffsetBare + SplitBare + MiscellaneousBare

  /** The bare tokens each region reads. */
  const GeneralBare: set<string> := {HelpLong, HelpShort, Version, Verbose, Debug, Overwrite}
  const DriveSpecificAndOffsetBare: set<string> := {PlextorSkipLeadin, AsusSkipLeadout, CorrectOffsetShift, OffsetShiftRelocate}
  const SplitBare: set<string> := {ForceSplit, LeaveUnchanged, ForceQTOC, ISO9660Trim}
  const MiscellaneousBare: set<string> := {RefineSubchannel, OverreadLeadout, ForceUnscrambled, LegacySubs, DisableCDText}

  /** The presence-map key a bare token marks: `-h` marks `--help`, every other token itself. */
  function BareKey(t: string): (k: string)
    ensures t in BareTokens ==> k in Bare
  {
    if t == HelpShort then HelpLong else t
  }

  /** The position of a spelling in declaration order, or -1 for a spelling that is not a flag. */
  function Position(s: string): (r: int)
    ensures -1 <= r < |All|
  {
    if s == HelpLong then 0
    else if s == HelpShort then 1
    else if s == Version then 2
    else if s == Verbose then 3
    else if s == AutoEject then 4
    else if s == Debug then 5
    else if s == Drive then 6
    else if s == Speed then 7
    else if s == Retries then 8
    else if s == ImagePath then 9
    else if s == ImageName then 10
    else if s == Overwrite then 11
    else if s == DriveType then 12
    else if s == DriveReadOffset then 13
    else if s == DriveC2Shift then 14
    else if s == DrivePregapStart then 15
    else if s == DriveReadMethod then 16
    else if s == DriveSectorOrder then 17
    else if s == PlextorSkipLeadin then 18
    else if s == PlextorLeadinRetries then 19
    else if s == AsusSkipLeadout then 20
    else if s == ForceOffset then 21
    else if s == AudioSilenceThreshold then 22
    else if s == CorrectOffsetShift then 23
    else if s == OffsetShiftRelocate then 24
    else if s == ForceSplit then 25
    else if s == LeaveUnchanged then 26
    else if s == ForceQTOC then 27
    else if s == SkipFill then 28
    else if s == ISO9660Trim then 29
    else if s == LBAStart then 30
    else if s == LBAEnd then 31
    else if s == RefineSubchannel then 32
    else if s == Skip then 33
    else if s == DumpWriteOffset then 34
    else if s == DumpReadSize then 35
    else if s == OverreadLeadout then 36
    else if s == ForceUnscrambled then 37
    else if s == LegacySubs then 38
    else if s == DisableCDText then 39
    else -1
  }


  /** Positions 0 to 4. */
  lemma Positions0()
    ensures Position(HelpLong) == 0
    ensures Position(HelpShort) == 1
    ensures Position(Version) == 2
    ensures Position(Verbose) == 3
    ensures Position(AutoEject) == 4
  {
  }

  /** Positions 5 to 9. */
  lemma Positions1()
    ensures Position(Debug) == 5
    ensures Position(Drive) == 6
    ensures Position(Speed) == 7
    ensures Position(Retries) == 8
    ensures Position(ImagePath) == 9
  {
  }

  /** Positions 10 to 14. */
  lemma Positions2()
    ensures Position(ImageName) == 10
    ensures Position(Overwrite) == 11
    ensures Position(DriveType) == 12
    ensures Position(DriveReadOffset) == 13
    ensures Position(DriveC2Shift) == 14
  {
  }

  /** Positions 15 to 19. */
  lemma Positions3()
    ensures Position(DrivePregapStart) == 15
    ensures Position(DriveReadMethod) == 16
    ensures Position(DriveSectorOrder) == 17
    ensures Position(PlextorSkipLeadin) == 18
    ensures Position(PlextorLeadinRetries) == 19
  {
  }

  /** Positions 20 to 24. */
  lemma Positions4()
    ensures Position(AsusSkipLeadout) == 20
    ensures Position(ForceOffset) == 21
    ensures Position(AudioSilenceThreshold) == 22
    ensures Position(CorrectOffsetShift) == 23
    ensures Position(OffsetShiftRelocate) == 24
  {
  }

  /** Positions 25 to 29. */
  lemma Positions5()
    ensures Position(ForceSplit) == 25
    ensures Position(LeaveUnchanged) == 26
    ensures Position(ForceQTOC) == 27
    ensures Position(SkipFill) == 28
    ensures Position(ISO9660Trim) == 29
  {
  }

  /** Positions 30 to 34. */
  lemma Positions6()
    ensures Position(LBAStart) == 30
    ensures Position(LBAEnd) == 31
    ensures Position(RefineSubchannel) == 32
    ensures Position(Skip) == 33
    ensures Position(DumpWriteOffset) == 34
  {
  }

  /** Positions 35 to 39. */
  lemma Positions7()
    ensures Position(DumpReadSize) == 35
    ensures Position(OverreadLeadout) == 36
    ensures Position(ForceUnscrambled) == 37
    ensures Position(LegacySubs) == 38
    ensures Position(DisableCDText) == 39
  {
  }

  /** Every constant is found again at its own position: the spellings decode back to the flag they spell. */
  lemma PositionOfAll()
    ensures forall i | 0 <= i < |All| :: Position(All[i]) == i
  {
    Positions0(); Positions1(); Positions2(); Positions3();
    Positions4(); Positions5(); Positions6(); Positions7();
  }

  /** The 40 constants are pairwise distinct, so each names its own presence-map entry. */
  lemma AllDistinct()
    ensures |All| == 40
    ensures forall i, j | 0 <= i < j < |All| :: All[i] != All[j]
  {
    PositionOfAll();
  }

  /** Every constant starts with `-`. */
  lemma AllStartWithDash()
    ensures forall i | 0 <= i < |All| :: |All[i]| >= 2 && All[i][0] == '-'
  {
  }

  /** All constants but `-h` start with `--`. */
  lemma AllButHelpShortAreLong()
    ensures forall i | 0 <= i < |All| && i != 1 :: All[i][1] == '-'
    ensures HelpShort == All[1] && HelpShort[1] != '-'
  {
  }

  /** Generation never writes `-h`; it writes `--help` in its place. */
  lemma HelpShortNeverGenerated()
    ensures HelpShort !in GenerationOrder && HelpLong in GenerationOrder
  {
    PositionOfAll();
    forall i | 0 <= i < |GenerationOrder|
      ensures GenerationOrder[i] != HelpShort
    {
      if i > 0 {
        assert GenerationOrder[i] == All[2..][i - 1];
      }
    }
  }

  /** Every flag generation writes is spelled with two leading dashes. */
  lemma GeneratedAreLong()
    ensures forall i | 0 <= i < |GenerationOrder| ::
      |GenerationOrder[i]| >= 2 && GenerationOrder[i][0] == '-' && GenerationOrder[i][1] == '-'
  {
    AllStartWithDash();
    AllButHelpShortAreLong();
    forall i | 0 <= i < |GenerationOrder|
      ensures |GenerationOrder[i]| >= 2 && GenerationOrder[i][0] == '-' && GenerationOrder[i][1] == '-'
    {
      if i > 0 {
        assert GenerationOrder[i] == All[2..][i - 1];
      }
    }
  }

  /** Every constant but `-h` is among the flags generation writes. */
  lemma AllButHelpShortGenerated()
    ensures forall i | 0 <= i < |All| && i != 1 :: All[i] in GenerationOrder
  {
    forall i | 0 <= i < |All| && i != 1
      ensures All[i] in GenerationOrder
    {
      if i == 0 {
        assert GenerationOrder[0] == All[0];
      } else {
        assert GenerationOrder[i - 1] == All[2..][i - 2];
      }
    }
  }

  /** `--auto-eject` is among the flags generation writes. */
  lemma AutoEjectIsGenerated()
    ensures AutoEject in GenerationOrder
  {
    assert AutoEject == GenerationOrder[3];
  }

  /** Parsing never marks `--auto-eject`, and it records `-h` under `--help`. */
  lemma AutoEjectIsNotParsed()
    ensures AutoEject !in Parsed
    ensures HelpShort !in Parsed && HelpLong in Parsed
  {
  }

  /** Constants 0 to 4 hold no `=`. */
  lemma NoEquals0()
    ensures forall i | 0 <= i < 5 :: '=' !in All[i]
  {
  }

  /** Constants 5 to 9 hold no `=`. */
  lemma NoEquals1()
    ensures forall i | 5 <= i < 10 :: '=' !in All[i]
  {
  }

  /** Constants 10 to 14 hold no `=`. */
  lemma NoEquals2()
    ensures forall i | 10 <= i < 15 :: '=' !in All[i]
  {
  }

  /** Constants 15 to 19 hold no `=`. */
  lemma NoEquals3()
    ensures forall i | 15 <= i < 20 :: '=' !in All[i]
  {
  }

  /** Constants 20 to 24 hold no `=`. */
  lemma NoEquals4()
    ensures forall i | 20 <= i < 25 :: '=' !in All[i]
  {
  }

  /** Constants 25 to 29 hold no `=`. */
  lemma NoEquals5()
    ensures forall i | 25 <= i < 30 :: '=' !in All[i]
  {
  }

  /** Constants 30 to 34 hold no `=`. */
  lemma NoEquals6()
    ensures forall i | 30 <= i < 35 :: '=' !in All[i]
  {
  }

  /** Constants 35 to 39 hold no `=`. */
  lemma NoEquals7()
    ensures forall i | 35 <= i < 40 :: '=' !in All[i]
  {
  }

  /** No spelling holds `=`, so in a `flag=value` token the first `=` ends the flag. */
  lemma AllHaveNoEquals()
    ensures forall i | 0 <= i < |All| :: '=' !in All[i]
    ensures forall i | 0 <= i < |GenerationOrder| :: '=' !in GenerationOrder[i]
  {
    NoEquals0(); NoEquals1(); NoEquals2(); NoEquals3();
    NoEquals4(); NoEquals5(); NoEquals6(); NoEquals7();
    forall i | 0 <= i < |GenerationOrder|
      ensures '=' !in GenerationOrder[i]
    {
      if i > 0 {
        assert GenerationOrder[i] == All[2..][i - 1];
      }
    }
  }

  /** A bare flag's spelling holds no `=`, so no `flag=value` token can equal it. */
  lemma BareHaveNoEquals()
    ensures forall f | f in Bare :: '=' !in f
  {
  }

  /** The regions together read exactly the parsed keys. */
  lemma RegionKeysParsed()
    ensures GeneralKeys + DriveConfigurationKeys + DriveSpecificAndOffsetKeys + SplitKeys + MiscellaneousKeys == Parsed
  {
  }

  /** Every bare token is read by the region that lists it, except `--auto-eject`, which no region reads. */
  lemma BareTokensByRegion()
    ensures BareTokens == GeneralBare + DriveSpecificAndOffsetBare + SplitBare + MiscellaneousBare + {AutoEject}
    ensures forall t | t in BareTokens :: (BareKey(t) in Parsed <==> t != AutoEject)
  {
    AutoEjectIsNotParsed();
  }

  /** The keys a bare token marks: its own key, or none for `--auto-eject`, which no region reads. */
  function Switched(t: string): set<string> {
    if t == AutoEject then {} else {BareKey(t)}
  }

  /** A bare token looks like a flag: it starts with `-`. */
  lemma BareTokenIsFlagLike(t: string)
    requires t in BareTokens
    ensures StartsWith(t, "-")
  {
    assert t[0] == '-';
    assert t[..1] == "-";
  }

  /** A bare token holds no `=`, starts with `-`, and names no flag that carries a value. */
  lemma BareTokenShape(t: string)
    requires t in BareTokens
    ensures '=' !in t && StartsWith(t, "-")
    ensures t !in GeneralValued && t !in DriveConfigurationKeys && t !in DriveSpecificAndOffsetValued
    ensures t != SkipFill && t !in MiscellaneousValued
  {
    BareHaveNoEquals();
    BareTokenIsFlagLike(t);
    GeneralNotBare();
    DriveConfigurationNotBare0();
    DriveConfigurationNotBare1();
    OthersNotBare();
  }

  /** No General flag with a value is a bare token. */
  lemma GeneralNotBare()
    ensures Drive !in BareTokens && Speed !in BareTokens && Retries !in BareTokens
    ensures ImagePath !in BareTokens && ImageName !in BareTokens
  {
  }

  /** The first three Drive Configuration flags are no bare token. */
  lemma DriveConfigurationNotBare0()
    ensures DriveType !in BareTokens && DriveReadOffset !in BareTokens && DriveC2Shift !in BareTokens
  {
  }

  /** The last three Drive Configuration flags are no bare token. */
  lemma DriveConfigurationNotBare1()
    ensures DrivePregapStart !in BareTokens && DriveReadMethod !in BareTokens && DriveSectorOrder !in BareTokens
  {
  }

  /** No flag with a value of the later regions is a bare token. */
  lemma OthersNotBare()
    ensures PlextorLeadinRetries !in BareTokens && ForceOffset !in BareTokens && AudioSilenceThreshold !in BareTokens
    ensures SkipFill !in BareTokens
    ensures LBAStart !in BareTokens && LBAEnd !in BareTokens && Skip !in BareTokens
    ensures DumpWriteOffset !in BareTokens && DumpReadSize !in BareTokens
  {
  }

  /** The General flags with a value hold no `=`. */
  lemma GeneralHaveNoEquals()
    ensures '=' !in Drive && '=' !in Speed && '=' !in Retries && '=' !in ImagePath && '=' !in ImageName
  {
  }

  /** The Drive Configuration flags hold no `=`. */
  lemma DriveConfigurationHaveNoEquals()
    ensures '=' !in DriveType && '=' !in DriveReadOffset && '=' !in DriveC2Shift
    ensures '=' !in DrivePregapStart && '=' !in DriveReadMethod && '=' !in DriveSectorOrder
  {
  }

  /** The flags with a value of the later regions hold no `=`. */
  lemma OthersHaveNoEquals()
    ensures '=' !in PlextorLeadinRetries && '=' !in ForceOffset && '=' !in AudioSilenceThreshold
    ensures '=' !in SkipFill
    ensures '=' !in LBAStart && '=' !in LBAEnd && '=' !in Skip && '=' !in DumpWriteOffset && '=' !in DumpReadSize
  {
  }

  /** The General keys sit at positions 0 to 11 of the declaration order. */
  lemma GeneralPositions()
    ensures forall x | x in GeneralKeys :: 0 <= Position(x) < 12
  {
    Positions0(); Positions1(); Positions2();
  }

  /** The Drive Configuration keys sit at positions 12 to 17. */
  lemma DriveConfigurationPositions()
    ensures forall x | x in DriveConfigurationKeys :: 12 <= Position(x) < 18
  {
    Positions2(); Positions3();
  }

  /** The Drive Specific and Offset keys sit at positions 18 to 24. */
  lemma DriveSpecificAndOffsetPositions()
    ensures forall x | x in DriveSpecificAndOffsetKeys :: 18 <= Position(x) < 25
  {
    Positions3(); Positions4();
  }

  /** The Split keys sit at positions 25 to 29. */
  lemma SplitPositions()
    ensures forall x | x in SplitKeys :: 25 <= Position(x) < 30
  {
    Positions5();
  }

  /** The Miscellaneous keys sit at positions 30 to 39. */
  lemma MiscellaneousPositions()
    ensures forall x | x in MiscellaneousKeys :: 30 <= Position(x) < 40
  {
    Positions6(); Positions7();
  }

  /** No key is read by two regions. */
  lemma RegionsDisjoint()
    ensures GeneralKeys !! DriveConfigurationKeys && GeneralKeys !! DriveSpecificAndOffsetKeys
    ensures GeneralKeys !! SplitKeys && GeneralKeys !! MiscellaneousKeys
    ensures DriveConfigurationKeys !! DriveSpecificAndOffsetKeys && DriveConfigurationKeys !! SplitKeys
    ensures DriveConfigurationKeys !! MiscellaneousKeys
    ensures DriveSpecificAndOffsetKeys !! SplitKeys && DriveSpecificAndOffsetKeys !! MiscellaneousKeys
    ensures SplitKeys !! MiscellaneousKeys
  {
    GeneralPositions(); DriveConfigurationPositions(); DriveSpecificAndOffsetPositions();
    SplitPositions(); MiscellaneousPositions();
  }

  /** Each region's flags with a value are among its keys. */
  lemma RegionValuedAreKeys()
    ensures GeneralValued <= GeneralKeys && DriveSpecificAndOffsetValued <= DriveSpecificAndOffsetKeys
    ensures SplitValued <= SplitKeys && MiscellaneousValued <= MiscellaneousKeys
  {
  }

  /** Every flag with a value is a parsed key. */
  lemma ValuedAreParsed()
    ensures Valued <= Parsed
  {
  }

  /** Every flag of the four kinds takes a value. */
  lemma KindsAreValued()
    ensures Int32Valued <= Valued && PathValued <= Valued && PlainTextValued <= Valued && SkipFill in Valued
  {
  }

  /** Every valued flag is of one of four kinds: 32-bit, path, plain text or the skip-fill byte. */
  lemma ValuedKind(key: string)
    requires key in Valued
    ensures key in Int32Valued || key in PathValued || key in PlainTextValued || key == SkipFill
  {
  }

  /** A 32-bit flag has no `=` in its spelling and is of no other kind. */
  lemma Int32Spelling(key: string)
    requires key in Int32Valued
    ensures '=' !in key && key !in PathValued && key !in PlainTextValued && key != SkipFill
  {
    OthersHaveNoEquals();
    GeneralHaveNoEquals();
    DriveConfigurationHaveNoEquals();
  }

  /** A path flag has no `=` in its spelling and is of no other kind. */
  lemma PathSpelling(key: string)
    requires key in PathValued
    ensures '=' !in key && key !in Int32Valued && key !in PlainTextValued && key != SkipFill
  {
    GeneralHaveNoEquals();
  }

  /** A plain text flag has no `=` in its spelling and is of no other kind. */
  lemma PlainTextSpelling(key: string)
    requires key in PlainTextValued
    ensures '=' !in key && key !in Int32Valued && key !in PathValued && key != SkipFill
  {
    OthersHaveNoEquals();
    GeneralHaveNoEquals();
    DriveConfigurationHaveNoEquals();
  }

  /** The skip-fill flag has no `=` in its spelling and is of no other kind. */
  lemma FillSpelling()
    ensures '=' !in SkipFill && SkipFill !in Int32Valued && SkipFill !in PathValued && SkipFill !in PlainTextValued
  {
    OthersHaveNoEquals();
  }

  /** No flag with a value holds `=`. */
  lemma ValuedHaveNoEquals()
    ensures forall x | x in Valued :: '=' !in x
  {
    GeneralHaveNoEquals();
    DriveConfigurationHaveNoEquals();
    OthersHaveNoEquals();
  }

  /** No General flag both takes a value and is a switch. */
  lemma GeneralValuedAreNotSwitches()
    ensures GeneralValued !! GeneralSwitches
  {
  }

  /** No Drive Specific and Offset flag both takes a value and is bare. */
  lemma DriveSpecificAndOffsetValuedAreNotBare()
    ensures DriveSpecificAndOffsetValued !! DriveSpecificAndOffsetBare
  {
  }

  /** Neither the Split flag with a value nor a Miscellaneous one is bare. */
  lemma LaterValuedAreNotBare()
    ensures SplitValued !! SplitBare && MiscellaneousValued !! MiscellaneousBare
  {
  }

  /** Each region's switches are among its keys. */
  lemma RegionSwitchesAreKeys()
    ensures GeneralSwitches <= GeneralKeys && DriveSpecificAndOffsetBare <= DriveSpecificAndOffsetKeys
    ensures SplitBare <= SplitKeys && MiscellaneousBare <= MiscellaneousKeys
  {
  }

  /** No flag both takes a value and is a switch the readers mark. */
  lemma ValuedAreNotSwitches()
    ensures Valued !! Switches
  {
    GeneralValuedAreNotSwitches();
    DriveSpecificAndOffsetValuedAreNotBare();
    LaterValuedAreNotBare();
    RegionSwitchesAreKeys();
    RegionValuedAreKeys();
    RegionsDisjoint();
  }

  /** The valueless flags, by long spelling, that the readers mark: every parsed key without a value. */
  lemma SwitchesAndValued()
    ensures Valued + Switches == Parsed && Valued !! Switches
    ensures Switches <= Bare
  {
    ValuedAreNotSwitches();
    RegionSwitchesAreKeys();
    RegionValuedAreKeys();
    RegionKeysParsed();
  }

  /** A valueless flag the readers mark has no `=` in its spelling and is not `-h`. */
  lemma SwitchSpelling(key: string)
    requires key in Switches
    ensures '=' !in key && key != HelpShort
  {
    BareHaveNoEquals();
  }

  /** A valueless flag the readers mark takes no value. */
  lemma SwitchIsNotValued(key: string)
    requires key in Switches
    ensures key !in Valued && '=' !in key && key != HelpShort
  {
    SwitchesAndValued();
    SwitchSpelling(key);
  }

  /** A bare token other than `--auto-eject` names a valueless flag the readers mark. */
  lemma BareKeyIsSwitch(t: string)
    requires t in BareTokens && t != AutoEject
    ensures BareKey(t) in Switches
  {
  }
}

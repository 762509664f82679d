/**
 * Symbolic sound-effect keys: a closed table of named effects, each bound to
 * a packet path and an effect id, plus a `Custom` key that carries caller
 * values through unchanged.
 */
module SoundEffects {
  import opened Wrappers
  import opened Sfx

  const PacketDirectory := "DARKOMEN/SOUND/H/"

  /** The packets the named keys refer to. */
  const NamedPackets: set<string> := {
    "DARKOMEN/SOUND/H/BATALL.H", "DARKOMEN/SOUND/H/BATGEN.H", "DARKOMEN/SOUND/H/BATUND.H",
    "DARKOMEN/SOUND/H/BATWARGH.H", "DARKOMEN/SOUND/H/CAVERN.H", "DARKOMEN/SOUND/H/FIREWORK.H",
    "DARKOMEN/SOUND/H/GLUE.H", "DARKOMEN/SOUND/H/INTAFACE.H", "DARKOMEN/SOUND/H/NIGHT.H",
    "DARKOMEN/SOUND/H/TWITTER.H"
  }

  datatype SoundEffectKey =
      SanguineLoop
    | SteamWhistleCool
    | BattleAllies
    | FireArrow
    | LandArrow
    | CastFireball
    | HornUrgok
    | DispelMagic
    | PlopSplish
    | BattleUndead
    | BladeWindHit
    | RaiseDead
    | DaKrunchSplat
    | BattleWargh
    | SpiderCharge
    | ScorpCharge
    | MrDrippy
    | FireWorks
    | MapJourney
    | BuyArmor
    | NextPage
    | BuyBlokes
    | BuyMagic
    | ButtonPressed
    | ButtonReleased
    | ButtonDisabled
    | WindsOfMagic
    | SelectRegiment
    | ButtonAppear
    | InterfaceSfx6
    | ReloadTick
    | Money
    | NotDone
    | InterfaceSfx10
    | SoundOfNight
    | TwitterLoop
    | Custom(path: string, id: u8)
  {
    /** The packet that holds the effect: one of the named packets, or the custom key's own path. */
    function PacketPath(): (r: string)
      ensures this.Custom? ==> r == this.path
      ensures !this.Custom? ==> r in NamedPackets
    {
      match this
      case SanguineLoop => "DARKOMEN/SOUND/H/BATALL.H"
      case SteamWhistleCool => "DARKOMEN/SOUND/H/BATALL.H"
      case BattleAllies => "DARKOMEN/SOUND/H/BATALL.H"
      case FireArrow => "DARKOMEN/SOUND/H/BATGEN.H"
      case LandArrow => "DARKOMEN/SOUND/H/BATGEN.H"
      case CastFireball => "DARKOMEN/SOUND/H/BATGEN.H"
      case HornUrgok => "DARKOMEN/SOUND/H/BATGEN.H"
      case DispelMagic => "DARKOMEN/SOUND/H/BATGEN.H"
      case PlopSplish => "DARKOMEN/SOUND/H/BATGEN.H"
      case BattleUndead => "DARKOMEN/SOUND/H/BATUND.H"
      case BladeWindHit => "DARKOMEN/SOUND/H/BATUND.H"
      case RaiseDead => "DARKOMEN/SOUND/H/BATUND.H"
      case DaKrunchSplat => "DARKOMEN/SOUND/H/BATWARGH.H"
      case BattleWargh => "DARKOMEN/SOUND/H/BATWARGH.H"
      case SpiderCharge => "DARKOMEN/SOUND/H/BATWARGH.H"
      case ScorpCharge => "DARKOMEN/SOUND/H/BATWARGH.H"
      case MrDrippy => "DARKOMEN/SOUND/H/CAVERN.H"
      case FireWorks => "DARKOMEN/SOUND/H/FIREWORK.H"
      case MapJourney => "DARKOMEN/SOUND/H/GLUE.H"
      case BuyArmor => "DARKOMEN/SOUND/H/GLUE.H"
      case NextPage => "DARKOMEN/SOUND/H/GLUE.H"
      case BuyBlokes => "DARKOMEN/SOUND/H/GLUE.H"
      case BuyMagic => "DARKOMEN/SOUND/H/GLUE.H"
      case ButtonPressed => "DARKOMEN/SOUND/H/INTAFACE.H"
      case ButtonReleased => "DARKOMEN/SOUND/H/INTAFACE.H"
      case ButtonDisabled => "DARKOMEN/SOUND/H/INTAFACE.H"
      case WindsOfMagic => "DARKOMEN/SOUND/H/INTAFACE.H"
      case SelectRegiment => "DARKOMEN/SOUND/H/INTAFACE.H"
      case ButtonAppear => "DARKOMEN/SOUND/H/INTAFACE.H"
      case InterfaceSfx6 => "DARKOMEN/SOUND/H/INTAFACE.H"
      case ReloadTick => "DARKOMEN/SOUND/H/INTAFACE.H"
      case Money => "DARKOMEN/SOUND/H/INTAFACE.H"
      case NotDone => "DARKOMEN/SOUND/H/INTAFACE.H"
      case InterfaceSfx10 => "DARKOMEN/SOUND/H/INTAFACE.H"
      case SoundOfNight => "DARKOMEN/SOUND/H/NIGHT.H"
      case TwitterLoop => "DARKOMEN/SOUND/H/TWITTER.H"
      case Custom(path, _) => path
    }

    /** The effect's id within its packet; the named keys use ids up to 34. */
    function SoundEffectId(): (r: u8)
      ensures this.Custom? ==> r == this.id
      ensures !this.Custom? ==> r <= 34
    {
      match this
      case SanguineLoop => 3
      case SteamWhistleCool => 31
      case BattleAllies => 34
      case FireArrow => 3
      case LandArrow => 4
      case CastFireball => 5
      case HornUrgok => 10
      case DispelMagic => 12
      case PlopSplish => 14
      case BattleUndead => 3
      case BladeWindHit => 10
      case RaiseDead => 11
      case DaKrunchSplat => 11
      case BattleWargh => 12
      case SpiderCharge => 18
      case ScorpCharge => 20
      case MrDrippy => 0
      case FireWorks => 0
      case MapJourney => 0
      case BuyArmor => 1
      case NextPage => 2
      case BuyBlokes => 3
      case BuyMagic => 4
      case ButtonPressed => 0
      case ButtonReleased => 1
      case ButtonDisabled => 2
      case WindsOfMagic => 3
      case SelectRegiment => 4
      case ButtonAppear => 5
      case InterfaceSfx6 => 6
      case ReloadTick => 7
      case Money => 8
      case NotDone => 9
      case InterfaceSfx10 => 10
      case SoundOfNight => 0
      case TwitterLoop => 0
      case Custom(_, id) => id
    }
  }

  /** The key used when none is given. */
  function DefaultKey(): (k: SoundEffectKey)
    ensures k.PacketPath() == PacketDirectory + "INTAFACE.H" && k.SoundEffectId() == 0
  {
    ButtonPressed
  }

  /** Builds a key for a packet and effect outside the table. */
  function CustomKey(packetPath: string, soundEffectId: u8): (k: SoundEffectKey)
    ensures k.PacketPath() == packetPath && k.SoundEffectId() == soundEffectId
  {
    Custom(packetPath, soundEffectId)
  }

  /**
   * The table read backwards: the named key bound to a packet path and id,
   * if there is one.  It is the reference against which the table is shown
   * to be injective.
   */
  function NamedKey(packetPath: string, soundEffectId: u8): Option<SoundEffectKey>
  {
    if packetPath == "DARKOMEN/SOUND/H/BATALL.H" then
      match soundEffectId
      case 3 => Some(SanguineLoop)
      case 31 => Some(SteamWhistleCool)
      case 34 => Some(BattleAllies)
      case _ => None
    else if packetPath == "DARKOMEN/SOUND/H/BATGEN.H" then
      match soundEffectId
      case 3 => Some(FireArrow)
      case 4 => Some(LandArrow)
      case 5 => Some(CastFireball)
      case 10 => Some(HornUrgok)
      case 12 => Some(DispelMagic)
      case 14 => Some(PlopSplish)
      case _ => None
    else if packetPath == "DARKOMEN/SOUND/H/BATUND.H" then
      match soundEffectId
      case 3 => Some(BattleUndead)
      case 10 => Some(BladeWindHit)
      case 11 => Some(RaiseDead)
      case _ => None
    else if packetPath == "DARKOMEN/SOUND/H/BATWARGH.H" then
      match soundEffectId
      case 11 => Some(DaKrunchSplat)
      case 12 => Some(BattleWargh)
      case 18 => Some(SpiderCharge)
      case 20 => Some(ScorpCharge)
      case _ => None
    else if packetPath == "DARKOMEN/SOUND/H/CAVERN.H" then
      match soundEffectId
      case 0 => Some(MrDrippy)
      case _ => None
    else if packetPath == "DARKOMEN/SOUND/H/FIREWORK.H" then
      match soundEffectId
      case 0 => Some(FireWorks)
      case _ => None
    else if packetPath == "DARKOMEN/SOUND/H/GLUE.H" then
      match soundEffectId
      case 0 => Some(MapJourney)
      case 1 => Some(BuyArmor)
      case 2 => Some(NextPage)
      case 3 => Some(BuyBlokes)
      case 4 => Some(BuyMagic)
      case _ => None
    else if packetPath == "DARKOMEN/SOUND/H/INTAFACE.H" then
      match soundEffectId
      case 0 => Some(ButtonPressed)
      case 1 => Some(ButtonReleased)
      case 2 => Some(ButtonDisabled)
      case 3 => Some(WindsOfMagic)
      case 4 => Some(SelectRegiment)
      case 5 => Some(ButtonAppear)
      case 6 => Some(InterfaceSfx6)
      case 7 => Some(ReloadTick)
      case 8 => Some(Money)
      case 9 => Some(NotDone)
      case 10 => Some(InterfaceSfx10)
      case _ => None
    else if packetPath == "DARKOMEN/SOUND/H/NIGHT.H" then
      match soundEffectId
      case 0 => Some(SoundOfNight)
      case _ => None
    else if packetPath == "DARKOMEN/SOUND/H/TWITTER.H" then
      match soundEffectId
      case 0 => Some(TwitterLoop)
      case _ => None
    else None
  }

  /** Every named key is found again from its packet path and id. */
  lemma NamedKeyInvertsTable(k: SoundEffectKey)
    requires !k.Custom?
    ensures NamedKey(k.PacketPath(), k.SoundEffectId()) == Some(k)
  {
  }

  /** No two named keys resolve to the same packet path and id. */
  lemma NamedKeysInjective(k1: SoundEffectKey, k2: SoundEffectKey)
    requires !k1.Custom? && !k2.Custom?
    requires k1.PacketPath() == k2.PacketPath() && k1.SoundEffectId() == k2.SoundEffectId()
    ensures k1 == k2
  {
    NamedKeyInvertsTable(k1);
    NamedKeyInvertsTable(k2);
  }

  /** Every named key's packet lives in the sound directory. */
  lemma NamedPacketPathPrefix(k: SoundEffectKey)
    requires !k.Custom?
    ensures |k.PacketPath()| > |PacketDirectory| && k.PacketPath()[..|PacketDirectory|] == PacketDirectory
  {
  }

  /** Every named key's packet is an `.H` file. */
  lemma NamedPacketPathSuffix(k: SoundEffectKey)
    requires !k.Custom?
    ensures var p := k.PacketPath(); |p| > 2 && p[|p| - 2..] == ".H"
  {
  }
}

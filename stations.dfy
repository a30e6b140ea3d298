/**
  The RADIO_STATION enumeration. A C enumeration is a set of named integer
  constants; these take the values 0..31 in declaration order, so a station
  is a track-list position below 32.
*/
module Stations {

  /** Number of enumerators. */
  const StationCount: nat := 32

  /** A value of the enumeration: every enumerator is below StationCount. */
  newtype Station = k: int | 0 <= k < StationCount

  const ClubHits: Station := 0
  const Breaks: Station := 1
  const SlapHouse: Station := 2
  const House: Station := 3
  const DeepOrganicHouse: Station := 4
  const Bassline: Station := 5
  const FutureGarage: Station := 6
  const BassAndJackingHouse: Station := 7
  const FutureBass: Station := 8
  const ChillAndTropicalHouse: Station := 9
  const ElectroSwing: Station := 10
  const ClubDubstep: Station := 11
  const VocalLounge: Station := 12
  const VocalChillout: Station := 13
  const LiquidDubstep: Station := 14
  const LiquidDnB: Station := 15
  const LatinHouse: Station := 16
  const Jungle: Station := 17
  const JazzHouse: Station := 18
  const Dubstep: Station := 19
  const Drumstep: Station := 20
  const Chillout: Station := 21
  const AtmosphericBreaks: Station := 22
  const Chillstep: Station := 23
  const DrumAndBass: Station := 24
  const DJMixes: Station := 25
  const Lounge: Station := 26
  const Ambient: Station := 27
  const FunkyHouse: Station := 28
  const SpaceDreams: Station := 29
  const ChilloutDreams: Station := 30
  const DiscoHouse: Station := 31
}

/** How the provider spells names: fully qualified, with the zone apex
    standing for the short name "@". */
module Zones {

  /** The provider's fully-qualified spelling of a short name in a zone: the
      apex for "@", the name and the zone joined by a dot otherwise. */
  function Qualify(short: string, zone: string): string {
    if short == "@" then zone else short + "." + zone
  }
}

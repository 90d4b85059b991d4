/** The repository normalises provider names in two places: the client
    wrapper's NormalizeName tests for the apex before stripping the zone
    suffix, while the adapter's recordToProperties strips first and tests
    for the apex afterwards, and skips both for an empty zone. This module
    pins down exactly where the two agree. */
module Naming {
  import opened Text
  import opened Zones
  import Client
  import Plugin

  /** With a non-empty zone the two disagree only on the zone written twice
      ("z.z"), which the adapter reads as the apex and the client as the host
      "z"; with an empty zone they disagree on the empty name and on names
      ending in a dot, which the client alters and the adapter does not. */
  lemma NormalisersAgree(fqdn: string, zone: string)
    ensures Plugin.ShortName(fqdn, zone) == Client.NormalizeName(fqdn, zone)
            <==> if zone == "" then fqdn != "" && !HasSuffix(fqdn, ".")
                 else fqdn != zone + "." + zone || zone == "@"
  {
    var suffix := "." + zone;
    if zone == "" {
      if HasSuffix(fqdn, suffix) && fqdn != "" {
        assert |TrimSuffix(fqdn, suffix)| < |fqdn|;
      }
    } else if fqdn == zone {
      Plugin.ShortNameOfApex(zone);
      assert |fqdn| != |zone + "." + zone|;
    } else if HasSuffix(fqdn, suffix) {
      var host := TrimSuffix(fqdn, suffix);
      assert fqdn == host + "." + zone;
      Plugin.ShortNameStripsZone(host, zone);
      Client.NormalizeStripsZone(host, zone);
      if fqdn == zone + "." + zone {
        assert host == fqdn[..|fqdn| - |suffix|] == zone;
      }
    } else {
      assert HasSuffix(zone + "." + zone, suffix) by {
        assert (zone + "." + zone)[|zone|..] == suffix;
      }
    }
  }

  /** Both normalisers invert the provider's qualification for every short
      name except the zone's own spelling, provided the zone is non-empty. */
  lemma NormalisersInvertQualify(short: string, zone: string)
    requires zone != "" && (short == "@" || short != zone)
    ensures Client.NormalizeName(Qualify(short, zone), zone) == short
    ensures Plugin.ShortName(Qualify(short, zone), zone) == short
  {
    Client.NormalizeQualified(short, zone);
    Plugin.ShortNameOfQualified(short, zone);
  }
}

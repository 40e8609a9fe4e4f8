/** What components/OutageCard.tsx derives from a report: the relative
    "time ago" caption, the service icon with its fallback, and the table
    lookups behind the service name and the status badge. Times are
    milliseconds since the epoch, as `Date.getTime()` returns them. */
module OutageCard {
  import opened Wrappers
  import Text
  import Locations
  import opened Domain

  const MsPerMinute: int := 60000
  const MsPerHour: int := 3600000
  const MsPerDay: int := 86400000

  const JustNow: string := "À l'instant"
  const AgoPrefix: string := "il y a "

  /** `il y a ${n}<unit>`. */
  function Ago(n: nat, unit: string): string {
    AgoPrefix + Text.NatToString(n) + unit
  }

  /** `jour${days > 1 ? 's' : ''}`. */
  function DayUnit(days: nat): (r: string)
    ensures r == " jours" <==> days > 1
    ensures r == " jour" <==> days <= 1
  {
    " jour" + (if days > 1 then "s" else "")
  }

  /** Floored division twice is floored division by the product. */
  lemma DivDiv(x: int, a: int, b: int)
    requires a > 0 && b > 0
    ensures (x / a) / b == x / (a * b)
  {
    var q, r := x / a, x % a;
    var q2, r2 := q / b, q % b;
    Regroup(a, b, q2, r2, r);
    RemainderBound(a, b, r2, r);
    DivUnique(x, a * b, q2, a * r2 + r);
  }

  lemma Regroup(a: int, b: int, q2: int, r2: int, r: int)
    ensures a * (b * q2 + r2) + r == (a * b) * q2 + (a * r2 + r)
  {
    assert a * (b * q2 + r2) == a * (b * q2) + a * r2;
  }

  lemma RemainderBound(a: int, b: int, r2: int, r: int)
    requires 0 <= r < a && 0 <= r2 < b
    ensures 0 <= a * r2 + r < a * b
  {
    assert a * r2 <= a * (b - 1);
    assert a * (b - 1) == a * b - a;
  }

  /** A quotient and remainder in range are the floored ones. */
  lemma DivUnique(x: int, d: int, q: int, r: int)
    requires d > 0 && 0 <= r < d && x == d * q + r
    ensures x / d == q
  {
    var q0, r0 := x / d, x % d;
    var k := q - q0;
    assert d * q == d * q0 + d * k;
    assert d * k == r0 - r;
    if k >= 1 {
      MulAtLeast(d, k);
    } else if k <= -1 {
      MulAtLeast(d, -k);
    }
  }

  lemma {:induction false} MulAtLeast(d: int, k: int)
    requires d > 0 && k >= 1
    ensures d * k >= d
    decreases k
  {
    if k > 1 {
      MulAtLeast(d, k - 1);
      assert d * k == d * (k - 1) + d;
    }
  }

  /** `getTimeAgo(timestamp)`, with the clock reading passed in: whole
      minutes are floored, then hours from minutes, then days from hours. */
  function TimeAgo(nowMs: int, timestampMs: int): (r: string)
    ensures nowMs - timestampMs < MsPerMinute ==> r == JustNow
    ensures MsPerMinute <= nowMs - timestampMs < MsPerHour ==>
      r == Ago((nowMs - timestampMs) / MsPerMinute, " min")
    ensures MsPerHour <= nowMs - timestampMs < MsPerDay ==>
      r == Ago((nowMs - timestampMs) / MsPerHour, "h")
    ensures MsPerDay <= nowMs - timestampMs ==>
      var days := (nowMs - timestampMs) / MsPerDay;
      r == Ago(days, DayUnit(days))
  {
    var diff := nowMs - timestampMs;
    var minutes := diff / MsPerMinute;
    if minutes < 1 then JustNow
    else if minutes < 60 then Ago(minutes, " min")
    else
      var hours := minutes / 60;
      DivDiv(diff, MsPerMinute, 60);
      if hours < 24 then Ago(hours, "h")
      else
        var days := hours / 24;
        DivDiv(diff, MsPerHour, 24);
        Ago(days, DayUnit(days))
  }

  /** Days counted from minutes in two floored steps equal the minutes
      floored by 1440 directly. */
  lemma DaysFromMinutes(minutes: int)
    ensures (minutes / 60) / 24 == minutes / 1440
  {
    DivDiv(minutes, 60, 24);
  }

  /** Every caption but "just now" reads "il y a <n>…", with n at least 1. */
  lemma CaptionShape(nowMs: int, timestampMs: int)
    ensures TimeAgo(nowMs, timestampMs) == JustNow || Text.StartsWith(TimeAgo(nowMs, timestampMs), AgoPrefix)
    ensures TimeAgo(nowMs, timestampMs) == JustNow <==> nowMs - timestampMs < MsPerMinute
  {
    var r := TimeAgo(nowMs, timestampMs);
    if nowMs - timestampMs >= MsPerMinute {
      assert r[..|AgoPrefix|] == AgoPrefix;
      assert r[0] == 'i' && JustNow[0] == 'À';
    }
  }

  /** A report stamped in the future reads "just now". */
  lemma FutureIsJustNow(nowMs: int, timestampMs: int)
    requires timestampMs > nowMs
    ensures TimeAgo(nowMs, timestampMs) == JustNow
  {
  }

  datatype Icon = Zap | Droplets | Wifi

  /** `getServiceIcon()`: electricity's bolt also serves every unknown type. */
  function ServiceIcon(serviceType: string): (r: Icon)
    ensures r == Droplets <==> serviceType == "water"
    ensures r == Wifi <==> serviceType == "internet"
    ensures r == Zap <==> serviceType != "water" && serviceType != "internet"
  {
    match serviceType
    case "electricity" => Zap
    case "water" => Droplets
    case "internet" => Wifi
    case _ => Zap
  }

  /** A type missing from the service table is drawn like electricity, and
      the three known types get three different icons. */
  lemma IconFallback(serviceType: string)
    ensures Locations.FindLabel(Locations.ServiceTypes, serviceType).None? ==>
      ServiceIcon(serviceType) == ServiceIcon("electricity")
    ensures forall i, j :: 0 <= i < j < |Locations.ServiceTypes| ==>
      ServiceIcon(Locations.ServiceTypes[i].id) != ServiceIcon(Locations.ServiceTypes[j].id)
  {
    if Locations.FindLabel(Locations.ServiceTypes, serviceType).None? {
      assert Locations.ServiceTypes[1].id == "water";
      assert Locations.ServiceTypes[2].id == "internet";
    }
  }

  /** What the card shows. Names and colours come from the tables and are
      absent for an unknown id; the badge background appends the alpha
      suffix to whatever the colour renders as, "undefined" included. */
  datatype Card = Card(
    icon: Icon,
    iconColor: Option<string>,
    serviceName: Option<string>,
    statusName: Option<string>,
    statusColor: Option<string>,
    badgeColor: string,
    place: string,
    description: Option<string>,
    byline: string,
    caption: string)

  /** `status?.color + '20'`. */
  function BadgeColor(status: Option<Locations.Label>): (r: string)
    ensures status.Some? ==> Text.StartsWith(r, status.value.color) && |r| == |status.value.color| + 2
    ensures |r| >= 2 && r[|r| - 2..] == "20"
    ensures status.None? ==> r == "undefined20"
  {
    (if status.Some? then status.value.color else "undefined") + "20"
  }

  function RenderCard(report: OutageReport, nowMs: int): (r: Card)
    ensures r.icon == ServiceIcon(report.serviceType)
    ensures r.serviceName.Some? <==> exists i :: 0 <= i < |Locations.ServiceTypes| && Locations.ServiceTypes[i].id == report.serviceType
    ensures r.statusName.Some? <==> exists i :: 0 <= i < |Locations.OutageStatuses| && Locations.OutageStatuses[i].id == report.status
    ensures r.iconColor == (if r.serviceName.Some? then Some(Locations.FindLabel(Locations.ServiceTypes, report.serviceType).value.color) else None)
    ensures r.description.Some? <==> report.description.Some? && report.description.value != ""
    ensures r.description.Some? ==> r.description == report.description
    ensures r.serviceName.Some? ==> r.serviceName == Some(Locations.FindLabel(Locations.ServiceTypes, report.serviceType).value.name)
    ensures r.statusName.Some? ==> r.statusName == Some(Locations.FindLabel(Locations.OutageStatuses, report.status).value.name)
    ensures r.statusColor.Some? <==> r.statusName.Some?
    ensures r.statusColor.Some? ==> r.statusColor == Some(Locations.FindLabel(Locations.OutageStatuses, report.status).value.color)
    ensures r.badgeColor == BadgeColor(Locations.FindLabel(Locations.OutageStatuses, report.status))
    ensures r.place == report.neighborhood + ", " + report.city
    ensures r.byline == "Par " + report.userName
    ensures r.caption == TimeAgo(nowMs, report.timestamp)
  {
    var service := Locations.FindLabel(Locations.ServiceTypes, report.serviceType);
    var status := Locations.FindLabel(Locations.OutageStatuses, report.status);
    Card(
      ServiceIcon(report.serviceType),
      if service.Some? then Some(service.value.color) else None,
      if service.Some? then Some(service.value.name) else None,
      if status.Some? then Some(status.value.name) else None,
      if status.Some? then Some(status.value.color) else None,
      BadgeColor(status),
      report.neighborhood + ", " + report.city,
      if report.description.Some? && report.description.value != "" then report.description else None,
      "Par " + report.userName,
      TimeAgo(nowMs, report.timestamp))
  }

  /** A report whose type and status come from the tables shows every label. */
  lemma KnownReportFullyLabelled(report: OutageReport, nowMs: int)
    requires report.serviceType in ["electricity", "water", "internet"]
    requires report.status in ["outage", "restored"]
    ensures RenderCard(report, nowMs).serviceName.Some? && RenderCard(report, nowMs).statusName.Some?
    ensures RenderCard(report, nowMs).badgeColor != "undefined20"
  {
    var t := report.serviceType;
    if t == "electricity" { assert Locations.ServiceTypes[0].id == t; }
    else if t == "water" { assert Locations.ServiceTypes[1].id == t; }
    else { assert Locations.ServiceTypes[2].id == t; }
    var status := Locations.FindLabel(Locations.OutageStatuses, report.status);
    if report.status == "outage" { assert Locations.OutageStatuses[0].id == report.status; }
    else { assert Locations.OutageStatuses[1].id == report.status; }
    assert status.value.color[0] == '#';
    assert BadgeColor(status)[0] == '#';
  }
}

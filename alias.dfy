/** The Alias value type of WMI_ALIAS.cs and the WMI_ALIAS constant catalog.
    An Alias wraps the name of a wmic alias; it is immutable, and equality
    and hashing go by that name. A null Alias reference is None. */
module WmiAlias {
  import opened Results

  datatype Alias = Alias(value: string) {

    /** ToString(): the stored name; building an Alias from it gives an equal Alias. */
    function ToString(): (s: string)
      ensures Alias(s) == this
      ensures |s| == |value|
    {
      value
    }
  }

  /** The parameterless constructor: the empty name, which is NONE. */
  function EmptyAlias(): (a: Alias)
    ensures a.ToString() == ""
    ensures a == NONE
  {
    Alias("")
  }

  /** The static type of the argument of Equals(object): null, an Alias,
      or an object of any other class. */
  datatype Object = NullObject | AliasObject(alias: Alias) | OtherObject

  /** Equals(object): true exactly for an Alias with the same name. */
  function Equals(a: Alias, obj: Object): (r: bool)
    ensures r <==> obj.AliasObject? && obj.alias.value == a.value
    ensures obj == NullObject ==> !r
  {
    match obj
    case NullObject => false
    case OtherObject => false
    case AliasObject(b) => a.value == b.value
  }

  /** operator ==: true for the same reference (both null included),
      false when exactly one side is null, otherwise by name. */
  function EqualOp(a: Option<Alias>, b: Option<Alias>): (r: bool)
    ensures r <==> a == b
    ensures a.None? && b.None? ==> r
    ensures a.None? != b.None? ==> !r
  {
    if a.None? && b.None? then true
    else if a.None? || b.None? then false
    else a.value.value == b.value.value
  }

  /** operator !=: negated comparison of the names; it reads both names
      without a null check, so a null operand raises NullReferenceException. */
  function NotEqualOp(a: Option<Alias>, b: Option<Alias>): (r: Result<bool>)
    ensures r.Fail? <==> a.None? || b.None?
    ensures r.Fail? ==> r.error == NullReference
    ensures r.Ok? ==> r.value == !EqualOp(a, b)
  {
    if a.None? || b.None? then Fail(NullReference)
    else Ok(!(a.value.value == b.value.value))
  }

  /** GetHashCode(): the hash of the name, with String.GetHashCode (which
      the runtime defines) as a parameter. */
  function HashCode(a: Alias, stringHash: string -> int): (h: int)
    ensures forall b: Alias :: Equals(a, AliasObject(b)) ==> h == stringHash(b.value)
  {
    stringHash(a.value)
  }

  /** Equal aliases, by Equals, have equal hash codes. */
  lemma EqualsConsistentWithHash(a: Alias, b: Alias, stringHash: string -> int)
    requires Equals(a, AliasObject(b))
    ensures HashCode(a, stringHash) == HashCode(b, stringHash)
  {
  }

  /** Equals is an equivalence on aliases, and agrees with operator ==. */
  lemma EqualsIsEquivalence(a: Alias, b: Alias, c: Alias)
    ensures Equals(a, AliasObject(a))
    ensures Equals(a, AliasObject(b)) == Equals(b, AliasObject(a))
    ensures Equals(a, AliasObject(b)) && Equals(b, AliasObject(c)) ==> Equals(a, AliasObject(c))
    ensures Equals(a, AliasObject(b)) == EqualOp(Some(a), Some(b))
  {
  }

  // ---------------------------------------------------------------------
  // The WMI_ALIAS catalog
  // ---------------------------------------------------------------------

  const NONE := Alias("")
  const BASEBOARD := Alias("baseboard")
  const BIOS := Alias("bios")
  const BOOT_CONFIG := Alias("bootconfig")
  const CDROM := Alias("cdrom")
  const COMPUTER_SYSTEM := Alias("computersystem")
  const CPU := Alias("cpu")
  const DATAFILE := Alias("datafile")
  const DCOMAPP := Alias("dcomapp")
  const DESKTOP := Alias("desktop")
  const DESKTOP_MONITOR := Alias("desktopmonitor")
  const DISK_DRIVE := Alias("diskdrive")
  const DISK_QUOTA := Alias("diskquota")
  const ENVIRONMENT := Alias("environment")
  const FSDIR := Alias("fsdir")
  const GROUP := Alias("group")
  const IDE_CONTROLLER := Alias("idecontroller")
  const IRQ := Alias("irq")
  const JOB := Alias("job")
  const LOAD_ORDER := Alias("loadorder")
  const LOGICAL_DISK := Alias("logicaldisk")
  const MEMORY_CACHE := Alias("memcache")
  const MEMORY_LOGICAL := Alias("memlogical")
  const MEMORY_PHYSICAL := Alias("memphysical")
  const NETCLIENT := Alias("netclient")
  const NETLOGIN := Alias("netlogin")
  const NETPROTOCOL := Alias("netprotocol")
  const NETUSE := Alias("netuse")
  const NETWORK_INTERFACE_CARD := Alias("nic")
  const NETWORK_INTERFACE_CARD_CONFIG := Alias("nicconfig")
  const DOMAIN := Alias("ntdomain")
  const NT_EVENT := Alias("ntevent")
  const INTEGRATED_DEVICES := Alias("onboarddevice")
  const OPERATING_SYSTEM := Alias("os")
  const PAGEFILE := Alias("pagefile")
  const PAGEFILE_SET := Alias("pagefileset")
  const PARTITION := Alias("partition")
  const PRINTER := Alias("printer")
  const PRINTJOB := Alias("printjob")
  const PROCESS := Alias("process")
  const PRODUCT := Alias("product")
  const QFE := Alias("qfe")
  const REGISTRY := Alias("registry")
  const SCSI_CONTROLLER := Alias("scsicontroller")
  const SERVER := Alias("server")
  const SERVICE := Alias("service")
  const SOUND_DEVICE := Alias("sounddev")
  const STARTUP := Alias("startup")
  const SYSTEM_ACCOUNT := Alias("sysaccount")
  const SYSTEM_DRIVER := Alias("sysdriver")
  const SYSTEM_ENCLOSURE := Alias("systemenclosure")
  const SYSTEM_SLOT := Alias("systemslot")
  const TAPE_DRIVE := Alias("tapedrive")
  const TIMEZONE := Alias("timezone")
  const USER_ACCOUNT := Alias("useraccount")
  const MEMORY_CHIP := Alias("memorychip")
  const CSPRODUCT := Alias("csproduct")

  /** Every constant of WMI_ALIAS, in declaration order (eight to a display). */
  const Catalog: seq<Alias> :=
      [NONE, BASEBOARD, BIOS, BOOT_CONFIG, CDROM, COMPUTER_SYSTEM, CPU, DATAFILE]
    + [DCOMAPP, DESKTOP, DESKTOP_MONITOR, DISK_DRIVE, DISK_QUOTA, ENVIRONMENT, FSDIR, GROUP]
    + [IDE_CONTROLLER, IRQ, JOB, LOAD_ORDER, LOGICAL_DISK, MEMORY_CACHE, MEMORY_LOGICAL, MEMORY_PHYSICAL]
    + [NETCLIENT, NETLOGIN, NETPROTOCOL, NETUSE, NETWORK_INTERFACE_CARD, NETWORK_INTERFACE_CARD_CONFIG, DOMAIN, NT_EVENT]
    + [INTEGRATED_DEVICES, OPERATING_SYSTEM, PAGEFILE, PAGEFILE_SET, PARTITION, PRINTER, PRINTJOB, PROCESS]
    + [PRODUCT, QFE, REGISTRY, SCSI_CONTROLLER, SERVER, SERVICE, SOUND_DEVICE, STARTUP]
    + [SYSTEM_ACCOUNT, SYSTEM_DRIVER, SYSTEM_ENCLOSURE, SYSTEM_SLOT, TAPE_DRIVE, TIMEZONE, USER_ACCOUNT, MEMORY_CHIP]
    + [CSPRODUCT]

  /** The position of a constant in Catalog, -1 for any other alias. */
  function CatalogPosition(a: Alias): int
  {
    match a.value
    case "" => 0
    case "baseboard" => 1
    case "bios" => 2
    case "bootconfig" => 3
    case "cdrom" => 4
    case "computersystem" => 5
    case "cpu" => 6
    case "datafile" => 7
    case "dcomapp" => 8
    case "desktop" => 9
    case "desktopmonitor" => 10
    case "diskdrive" => 11
    case "diskquota" => 12
    case "environment" => 13
    case "fsdir" => 14
    case "group" => 15
    case "idecontroller" => 16
    case "irq" => 17
    case "job" => 18
    case "loadorder" => 19
    case "logicaldisk" => 20
    case "memcache" => 21
    case "memlogical" => 22
    case "memphysical" => 23
    case "netclient" => 24
    case "netlogin" => 25
    case "netprotocol" => 26
    case "netuse" => 27
    case "nic" => 28
    case "nicconfig" => 29
    case "ntdomain" => 30
    case "ntevent" => 31
    case "onboarddevice" => 32
    case "os" => 33
    case "pagefile" => 34
    case "pagefileset" => 35
    case "partition" => 36
    case "printer" => 37
    case "printjob" => 38
    case "process" => 39
    case "product" => 40
    case "qfe" => 41
    case "registry" => 42
    case "scsicontroller" => 43
    case "server" => 44
    case "service" => 45
    case "sounddev" => 46
    case "startup" => 47
    case "sysaccount" => 48
    case "sysdriver" => 49
    case "systemenclosure" => 50
    case "systemslot" => 51
    case "tapedrive" => 52
    case "timezone" => 53
    case "useraccount" => 54
    case "memorychip" => 55
    case "csproduct" => 56
    case _ => -1
  }

  /** Each constant is found at its own position. */
  lemma CatalogPositions()
    ensures forall k :: 0 <= k < |Catalog| ==> CatalogPosition(Catalog[k]) == k
  {
    CatalogPositionsFirstQuarter();
    CatalogPositionsSecondQuarter();
    CatalogPositionsThirdQuarter();
    CatalogPositionsFourthQuarter();
  }

  lemma CatalogPositionsFirstQuarter()
    ensures |Catalog| == 57
    ensures forall k :: 0 <= k < 15 ==> CatalogPosition(Catalog[k]) == k
  {
    forall k | 0 <= k < 15 ensures CatalogPosition(Catalog[k]) == k {
      if k == 0 {} else if k == 1 {} else if k == 2 {} else if k == 3 {} else if k == 4 {} else if k == 5 {} else if k == 6 {} else if k == 7 {} else if k == 8 {} else if k == 9 {} else if k == 10 {} else if k == 11 {} else if k == 12 {} else if k == 13 {} else if k == 14 {}
    }
  }

  lemma CatalogPositionsSecondQuarter()
    ensures |Catalog| == 57
    ensures forall k :: 15 <= k < 29 ==> CatalogPosition(Catalog[k]) == k
  {
    forall k | 15 <= k < 29 ensures CatalogPosition(Catalog[k]) == k {
      if k == 15 {} else if k == 16 {} else if k == 17 {} else if k == 18 {} else if k == 19 {} else if k == 20 {} else if k == 21 {} else if k == 22 {} else if k == 23 {} else if k == 24 {} else if k == 25 {} else if k == 26 {} else if k == 27 {} else if k == 28 {}
    }
  }

  lemma CatalogPositionsThirdQuarter()
    ensures |Catalog| == 57
    ensures forall k :: 29 <= k < 43 ==> CatalogPosition(Catalog[k]) == k
  {
    forall k | 29 <= k < 43 ensures CatalogPosition(Catalog[k]) == k {
      if k == 29 {} else if k == 30 {} else if k == 31 {} else if k == 32 {} else if k == 33 {} else if k == 34 {} else if k == 35 {} else if k == 36 {} else if k == 37 {} else if k == 38 {} else if k == 39 {} else if k == 40 {} else if k == 41 {} else if k == 42 {}
    }
  }

  lemma CatalogPositionsFourthQuarter()
    ensures |Catalog| == 57
    ensures forall k :: 43 <= k < 57 ==> CatalogPosition(Catalog[k]) == k
  {
    forall k | 43 <= k < 57 ensures CatalogPosition(Catalog[k]) == k {
      if k == 43 {} else if k == 44 {} else if k == 45 {} else if k == 46 {} else if k == 47 {} else if k == 48 {} else if k == 49 {} else if k == 50 {} else if k == 51 {} else if k == 52 {} else if k == 53 {} else if k == 54 {} else if k == 55 {} else if k == 56 {}
    }
  }

  /** NONE is the only constant with the empty name, and no two constants
      share a name, so Equals tells every pair of constants apart. */
  lemma CatalogDistinct()
    ensures |Catalog| == 57 && Catalog[0] == NONE && NONE.value == ""
    ensures forall i :: 1 <= i < |Catalog| ==> Catalog[i].value != ""
    ensures forall i, j :: 0 <= i < j < |Catalog| ==> Catalog[i].value != Catalog[j].value
  {
    CatalogPositions();
  }
}

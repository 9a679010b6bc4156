/** Shared enumerations (Types.h, Alert.h, Location.h). */
module Types {

  datatype Option<+T> = None | Some(value: T)

  /** Threat types by index, in the order of the firmware's AlertType. */
  const TYPE_COUNT := 7
  type AlertType = t: nat | t < 7
  const AIR_RAID: AlertType := 0
  const ARTILLERY: AlertType := 1
  const URBAN_FIGHTS: AlertType := 2
  const CHEMICAL: AlertType := 3
  const NUCLEAR: AlertType := 4
  const AIR_RAID_YELLOW: AlertType := 5
  const UNKNOWN: AlertType := 6

  predicate IsAir(t: AlertType) {
    t == AIR_RAID || t == AIR_RAID_YELLOW
  }

  datatype Coverage = NoCoverage | Partial | Full

  type Byte = b: nat | b < 0x100
}

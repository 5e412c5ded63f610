/** The package-level constants of battery_handyman/constants.py. */
module Constants {

  const BatteryLimitValueMinimal: int := 0
  const BatteryLimitValueMaximal: int := 100
  const BatteryLimitValueDefaultCharged: int := 90
  const BatteryLimitValueDefaultLow: int := 40

  const ConfigNameBatteryLimit: string := "battery_limit_config"
  const ConfigNameCheck: string := "check_config"
  const ConfigNameRemoteRequest: string := "remote_request_config"

  const MsgChargingMustNotToBeToogled: string := "Charging must not to be toogled"

  const ResponseStatusCodeSuccessMax: int := 399

  const RequestDataKeyNeedsCharging: string := "needs_charging"
  const RequestDataValidKeyList: seq<string> := [RequestDataKeyNeedsCharging]

  /** The name the constructor looks up for the default check interval; constants.py does not define it. */
  const CheckIntervalDefaultName: string := "CHECK_INTERVAL_IN_SECONDS_DEFAULT"
}

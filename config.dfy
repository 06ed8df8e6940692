/*
 * Constants of the web console's configuration object: roles, statuses,
 * the offline threshold and the browser-storage keys of the session.
 */
module Config {
  const Master := "MASTER"
  const Admin := "ADMIN"
  const Viewer := "VIEWER"

  const Active := "ACTIVO"
  const Inactive := "INACTIVO"

  /** Minutes without a heartbeat after which a device counts as offline. */
  const OfflineThresholdMin := 5

  const UserEmailKey := "iot_user_email"
  const UserRoleKey := "iot_user_role"
  const UserNameKey := "iot_user_name"

  /** The event types the backend emits for access control and devices. */
  const AccessGranted := "ACCESS_GRANTED"
  const AccessDenied := "ACCESS_DENIED"
  const InUse := "IN_USE"
  const Error := "ERROR"
  const WifiDown := "WIFI_DOWN"
  const WifiRestored := "WIFI_RESTORED"
  const DeviceRestarted := "DEVICE_RESTARTED"
}

/** Constants that several services share. */
module Constants {
  const SYSTEM_TENANT_ID := "00000000-0000-0000-0000-000000000000"
}

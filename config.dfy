/** Types and constants shared by the monitoring agent's parser and hashing code
    (client/include/config.h, client/include/parser.h, include/hashing.h). */
module Config {
  /** SHA-256 digest size in bytes, from OpenSSL's sha.h. */
  const SHA256_DIGEST_LENGTH: nat := 32

  /** Length of a digest written as hex, without the terminating NUL. */
  const HASH_HEX_LEN: nat := SHA256_DIGEST_LENGTH * 2

  /** Linux's limits.h value; sizes the path field of a configuration entry. */
  const PATH_MAX: nat := 4096

  /** Location of the agent's own configuration file. */
  const CONFIG_PATH: string := "/etc/heimdall.conf"

  /** `hash_level_t`: how a monitored path is hashed. */
  datatype HashLevel = HashDir | HashFile | HashLine

  /** `alert_level_t`: the severity attached to a monitored path. */
  datatype AlertLevel = AlertRed | AlertYellow | AlertGreen

  /** `config_entry_t`: one monitored path. The C path field is a NUL-terminated
      `char[PATH_MAX]`, so a stored path holds at most PATH_MAX - 1 characters. */
  datatype ConfigEntry = ConfigEntry(path: string, hashLevel: HashLevel, alertLevel: AlertLevel)
}

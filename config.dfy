/** The connection record of src/Config.php: an immutable value. */
module Config {

  /** The port a configuration gets when none is given. */
  const DefaultPort: int := 3306

  datatype Config = Config(host: string, database: string, username: string, password: string, port: int)
}

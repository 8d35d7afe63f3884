/** The configuration records shared by the supervisor, the configuration
    reader and the network table (src/config.h). */
module Settings {

  datatype Option<+T> = None | Some(value: T)

  datatype PluginConfig = PluginConfig(
    name: string,
    path: string,
    executable: string,
    perNetwork: bool,
    parameters: string,
    variables: map<string, string>)

  datatype ServerConfig = ServerConfig(
    host: string,
    port: int,
    priority: int,
    ssl: bool,
    sslVerify: bool)

  datatype NetworkConfig = NetworkConfig(
    name: string,
    displayName: string,
    nickName: string,
    userName: string,
    fullName: string,
    password: string,
    autoConnect: bool,
    servers: seq<ServerConfig>)
}

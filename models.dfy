/**
 * The console's records as values. Timestamps are integer milliseconds; C# null strings are
 * the empty string.
 */
module Models {
  import opened Wrappers

  /** A saved SSH server profile (SSHConfig). */
  datatype SshProfile = SshProfile(
    id: int, name: string, host: string, port: int,
    username: string, password: string, lastUsed: Option<int>)

  /** The last-used deployment settings of one container and environment (DeployConfig). */
  datatype DeployConfig = DeployConfig(
    containerId: string, containerName: string, environment: string,
    serverName: string, serverHost: string, serverPort: int,
    localPath: string, remotePath: string, lastUsed: int)

  /** The settings of one Java deployment run (JavaDeployConfig). */
  datatype JavaDeployConfig = JavaDeployConfig(
    projectPath: string, serverName: string, serverHost: string, serverPort: int,
    remotePath: string, deployScript: string, lastUsed: int)

  /** Saved MySQL credentials of one container (MySQLConfig). */
  datatype MySqlConfig = MySqlConfig(containerId: string, username: string, password: string, lastUsed: int)

  /**
   * What running a command (over SSH, or a local process) gave back: the exception it threw,
   * or its standard output and standard error.
   */
  datatype ExecResult = Threw(message: string) | Ran(stdout: string, stderr: string)
}

/** The per-bus configuration file: one entry per bus name. */
module Config {
  /** The table, stream and bucket names of one bus, and its region. */
  datatype LeoConfig = LeoConfig(
    leoCron: string, leoEvent: string, leoFirehoseStream: string, leoKinesisStream: string,
    leoS3: string, leoSettings: string, leoStats: string, leoStream: string, leoSystem: string,
    region: string)
}

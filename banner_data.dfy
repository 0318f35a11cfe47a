/** The value shown by the hang banner (Models/BannerData.swift). */
module Banner {
  /** The two SwiftUI colours the monitor ever gives a banner. */
  datatype Color = Yellow | Red

  /** A colour and a message; equality is structural, like Swift's synthesised `Equatable`. */
  datatype BannerData = BannerData(color: Color, message: string)
}

/**
 Values shared by the campaign listing screen: the campaign record it displays, the
 geometry it sizes items with, and an optional value.

 The `Campaign` type itself is declared outside the listing screen (Campaign.swift is not
 part of this model); only the three fields the screen reads are modelled.
 */

/** An opaque reference to an image; the screen only passes it on to a cell. */
datatype ImageRef = ImageRef(id: nat)

/** One campaign as produced by the networking layer. */
datatype Campaign = Campaign(name: string, description: string, moodImage: ImageRef)

/** An ordered list of campaigns: list order is display order, duplicates allowed. */
type CampaignList = seq<Campaign>

/** A size in points. Frame geometry is floating point in UIKit; here it is an integer. */
datatype Size = Size(width: int, height: int)

datatype Option<T> = None | Some(value: T)
